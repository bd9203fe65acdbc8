/** The upload endpoint as one pure function. The key validator, the form
    parser, and the extraction and structuring services are inputs: a
    boolean for the key, a `FormParse` for the parser, and one `Structuring`
    per uploaded file. The clock and the random number are inputs too. The
    result is the response, the session store afterwards, and the trace of
    side effects the handler performed, in order. */
module Handler {
  import opened Common
  import opened Statements
  import opened Combine
  import opened Validate
  import opened Session
  import opened FormFields

  /** What a `throw` carries: an `Error` with its message, or any other value. */
  datatype Thrown = ErrorObject(message: string) | OtherValue

  /** "Error while processing the files", used when the thrown value is not an `Error`. */
  const FallbackError: string := "خطأ في معالجة الملفات"
  /** "Incomplete data: ", put before the joined validation messages. */
  const IncompletePrefix: string := "بيانات غير مكتملة: "

  /** The 500 response text for a thrown value. */
  function ErrorText(e: Thrown): string {
    match e
    case ErrorObject(message) => message
    case OtherValue => FallbackError
  }

  /** Reading, extracting and structuring one file: the structured statement,
      or the value one of those steps threw. */
  datatype Structuring = Structured(data: Statement) | Threw(error: Thrown)

  /** One uploaded file as the parser stored it, with the outcome of processing it. */
  datatype Upload = Upload(
    tempPath: string,
    originalFilename: Option<string>,
    mimeType: Option<string>,
    size: nat,
    outcome: Structuring)

  /** The form parser's result: fields and the file entries (an entry may be
      missing), or the value it threw (too many files, a file too large, a
      malformed body). */
  datatype FormParse = Parsed(fields: Fields, uploads: seq<Option<Upload>>) | ParseFailed(error: Thrown)

  datatype Effect = FormParsed | FileRead(path: string) | TempRemoved(path: string) | SessionStored(sessionId: string)

  datatype Body =
    | Failure(error: string)
    | Success(sessionId: string, filesProcessed: nat, dataStructure: Structure, readyForAnalysis: bool, processedAt: string)

  datatype Response = Response(status: nat, body: Body)

  datatype Outcome = Outcome(response: Response, store: SessionStore, effects: seq<Effect>)

  /** Reference definition: the file entries that are present, in upload order. */
  function Present(uploads: seq<Option<Upload>>): (files: seq<Upload>)
    ensures |files| <= |uploads|
  {
    if |uploads| == 0 then []
    else
      match uploads[0]
      case None => Present(uploads[1..])
      case Some(u) => [u] + Present(uploads[1..])
  }

  /** Reference definition: the index of the first file whose processing
      throws, or the number of files when none does. */
  function FirstThrow(files: seq<Upload>): (k: nat)
    ensures k <= |files|
    ensures forall i :: 0 <= i < k ==> files[i].outcome.Structured?
    ensures k < |files| ==> files[k].outcome.Threw?
  {
    if |files| == 0 || files[0].outcome.Threw? then 0 else 1 + FirstThrow(files[1..])
  }

  function Paths(files: seq<Upload>): (ps: seq<string>)
    ensures |ps| == |files|
    ensures forall i :: 0 <= i < |files| ==> ps[i] == files[i].tempPath
  {
    if |files| == 0 then [] else [files[0].tempPath] + Paths(files[1..])
  }

  /** The temporary files removed, in the order of the trace. */
  function Removed(effects: seq<Effect>): seq<string> {
    if |effects| == 0 then []
    else (if effects[0].TempRemoved? then [effects[0].path] else []) + Removed(effects[1..])
  }

  /** The files read, in the order of the trace. */
  function Read(effects: seq<Effect>): seq<string> {
    if |effects| == 0 then []
    else (if effects[0].FileRead? then [effects[0].path] else []) + Read(effects[1..])
  }

  /** The entry pushed onto the per-file list for a processed file. */
  function ResultOf(u: Upload): FileResult
    requires u.outcome.Structured?
  {
    FileResult(u.originalFilename, u.outcome.data, u.size, u.mimeType)
  }

  datatype Processing = Processing(results: seq<FileResult>, effects: seq<Effect>, failure: Option<Thrown>)

  /** The sessions stored, in the order of the trace. */
  function Stored(effects: seq<Effect>): seq<string> {
    if |effects| == 0 then []
    else (if effects[0].SessionStored? then [effects[0].sessionId] else []) + Stored(effects[1..])
  }

  lemma {:induction false} RemovedAppend(a: seq<Effect>, b: seq<Effect>)
    ensures Removed(a + b) == Removed(a) + Removed(b)
  {
    if |a| > 0 {
      assert (a + b)[0] == a[0];
      assert (a + b)[1..] == a[1..] + b;
      RemovedAppend(a[1..], b);
    } else {
      assert a + b == b;
    }
  }

  lemma {:induction false} ReadAppend(a: seq<Effect>, b: seq<Effect>)
    ensures Read(a + b) == Read(a) + Read(b)
  {
    if |a| > 0 {
      assert (a + b)[0] == a[0];
      assert (a + b)[1..] == a[1..] + b;
      ReadAppend(a[1..], b);
    } else {
      assert a + b == b;
    }
  }

  lemma {:induction false} StoredAppend(a: seq<Effect>, b: seq<Effect>)
    ensures Stored(a + b) == Stored(a) + Stored(b)
  {
    if |a| > 0 {
      assert (a + b)[0] == a[0];
      assert (a + b)[1..] == a[1..] + b;
      StoredAppend(a[1..], b);
    } else {
      assert a + b == b;
    }
  }

  lemma TraceAppend(a: seq<Effect>, b: seq<Effect>)
    ensures Removed(a + b) == Removed(a) + Removed(b)
    ensures Read(a + b) == Read(a) + Read(b)
    ensures Stored(a + b) == Stored(a) + Stored(b)
  {
    RemovedAppend(a, b);
    ReadAppend(a, b);
    StoredAppend(a, b);
  }

  /** Every file was read, extracted and structured without a throw. */
  predicate AllStructured(files: seq<Upload>) {
    forall i :: 0 <= i < |files| ==> files[i].outcome.Structured?
  }

  /** The per-file list when every file was processed. */
  function ResultsOf(files: seq<Upload>): (rs: seq<FileResult>)
    requires AllStructured(files)
    ensures |rs| == |files|
    ensures forall i :: 0 <= i < |files| ==> rs[i] == ResultOf(files[i])
  {
    if |files| == 0 then [] else [ResultOf(files[0])] + ResultsOf(files[1..])
  }

  /** The loop over the file entries. Missing entries are skipped. Each
      present file is read, processed and pushed, then its temporary file is
      removed. The first throw ends the loop at once: that file and every
      later one keep their temporary files, and the request fails. */
  function ProcessUploads(uploads: seq<Option<Upload>>): (p: Processing)
    ensures |p.results| <= |Present(uploads)|
    ensures p.failure.None? ==> |p.results| == |Present(uploads)|
  {
    if |uploads| == 0 then Processing([], [], None)
    else
      match uploads[0]
      case None => ProcessUploads(uploads[1..])
      case Some(u) =>
        match u.outcome
        case Threw(e) => Processing([], [FileRead(u.tempPath)], Some(e))
        case Structured(data) =>
          var rest := ProcessUploads(uploads[1..]);
          Processing([ResultOf(u)] + rest.results, [FileRead(u.tempPath), TempRemoved(u.tempPath)] + rest.effects, rest.failure)
  }

  /** The loop fails exactly when some present file throws, with the first
      such file's error; otherwise it yields one result per present file, in
      upload order. */
  lemma {:induction false} ProcessUploadsOutcome(uploads: seq<Option<Upload>>)
    ensures var p := ProcessUploads(uploads);
      var files := Present(uploads);
      var k := FirstThrow(files);
      && (p.failure.None? <==> k == |files|)
      && (p.failure.Some? ==> p.failure.value == files[k].outcome.error)
      && (p.failure.None? ==> p.results == ResultsOf(files))
  {
    if |uploads| > 0 {
      match uploads[0]
      case None =>
        ProcessUploadsOutcome(uploads[1..]);
        assert Present(uploads) == Present(uploads[1..]);
        assert ProcessUploads(uploads) == ProcessUploads(uploads[1..]);
      case Some(u) =>
        var files := Present(uploads);
        assert files == [u] + Present(uploads[1..]);
        assert files[1..] == Present(uploads[1..]);
        if u.outcome.Structured? {
          ProcessUploadsOutcome(uploads[1..]);
        }
    }
  }

  lemma {:induction false} PathsPrefixCons(u: Upload, tail: seq<Upload>, j: nat)
    requires j <= |tail|
    ensures Paths(([u] + tail)[..j + 1]) == [u.tempPath] + Paths(tail[..j])
  {
    assert ([u] + tail)[..j + 1] == [u] + tail[..j];
    assert ([u] + tail[..j])[1..] == tail[..j];
  }

  /** Which temporary files are read and which removed: every present file
      up to and including the first one that throws is read; only those
      before it are removed; no session is stored. */
  lemma {:induction false} ProcessUploadsEffects(uploads: seq<Option<Upload>>)
    ensures var p := ProcessUploads(uploads);
      var files := Present(uploads);
      var k := FirstThrow(files);
      && Removed(p.effects) == Paths(files[..k])
      && Read(p.effects) == Paths(files[..if k < |files| then k + 1 else k])
      && Stored(p.effects) == []
  {
    if |uploads| > 0 {
      match uploads[0]
      case None =>
        ProcessUploadsEffects(uploads[1..]);
        assert Present(uploads) == Present(uploads[1..]);
        assert ProcessUploads(uploads) == ProcessUploads(uploads[1..]);
      case Some(u) =>
        if u.outcome.Threw? {
          ThrowEffects(uploads, u);
        } else {
          ProcessUploadsEffects(uploads[1..]);
          StructuredEffects(uploads, u);
        }
    }
  }

  lemma {:induction false} ThrowEffects(uploads: seq<Option<Upload>>, u: Upload)
    requires |uploads| > 0 && uploads[0] == Some(u) && u.outcome.Threw?
    ensures var p := ProcessUploads(uploads);
      var files := Present(uploads);
      && FirstThrow(files) == 0
      && Removed(p.effects) == Paths(files[..0])
      && Read(p.effects) == Paths(files[..1])
      && Stored(p.effects) == []
  {
    var files := Present(uploads);
    assert files == [u] + Present(uploads[1..]);
    PathsPrefixCons(u, Present(uploads[1..]), 0);
    assert Removed([FileRead(u.tempPath)]) == [];
    assert Read([FileRead(u.tempPath)]) == [u.tempPath];
    assert Stored([FileRead(u.tempPath)]) == [];
  }

  lemma {:induction false} StructuredEffects(uploads: seq<Option<Upload>>, u: Upload)
    requires |uploads| > 0 && uploads[0] == Some(u) && u.outcome.Structured?
    requires var rest := ProcessUploads(uploads[1..]);
      var tail := Present(uploads[1..]);
      var k := FirstThrow(tail);
      && Removed(rest.effects) == Paths(tail[..k])
      && Read(rest.effects) == Paths(tail[..if k < |tail| then k + 1 else k])
      && Stored(rest.effects) == []
    ensures var p := ProcessUploads(uploads);
      var files := Present(uploads);
      var k := FirstThrow(files);
      && Removed(p.effects) == Paths(files[..k])
      && Read(p.effects) == Paths(files[..if k < |files| then k + 1 else k])
      && Stored(p.effects) == []
  {
    var tail := Present(uploads[1..]);
    var rest := ProcessUploads(uploads[1..]);
    var head := [FileRead(u.tempPath), TempRemoved(u.tempPath)];
    assert ProcessUploads(uploads).effects == head + rest.effects;
    assert Present(uploads) == [u] + tail;
    HeadTrace(u, rest.effects);
    StructuredPaths(u, tail);
  }

  /** Reading and removing one file puts its path in front of both lists. */
  lemma HeadTrace(u: Upload, effects: seq<Effect>)
    ensures var all := [FileRead(u.tempPath), TempRemoved(u.tempPath)] + effects;
      && Removed(all) == [u.tempPath] + Removed(effects)
      && Read(all) == [u.tempPath] + Read(effects)
      && Stored(all) == Stored(effects)
  {
    var head := [FileRead(u.tempPath), TempRemoved(u.tempPath)];
    TraceAppend(head, effects);
    assert Removed(head) == [u.tempPath] && Read(head) == [u.tempPath] && Stored(head) == [];
  }

  /** Putting a processed file in front shifts the first throw by one and
      adds its path in front of both path lists. */
  lemma {:induction false} StructuredPaths(u: Upload, tail: seq<Upload>)
    requires u.outcome.Structured?
    ensures var files := [u] + tail;
      var k := FirstThrow(tail);
      && FirstThrow(files) == k + 1
      && Paths(files[..k + 1]) == [u.tempPath] + Paths(tail[..k])
      && Paths(files[..if k + 1 < |files| then k + 2 else k + 1])
         == [u.tempPath] + Paths(tail[..if k < |tail| then k + 1 else k])
  {
    var files := [u] + tail;
    var k := FirstThrow(tail);
    assert files[1..] == tail;
    PathsPrefixCons(u, tail, k);
    if k < |tail| {
      PathsPrefixCons(u, tail, k + 1);
    }
  }

  /** Combination, validation and storage, once every file was processed:
      an incomplete dataset is answered 400 with every message joined after
      the fixed prefix; a complete one is stored under a fresh session id and
      answered 200. */
  function Conclude(
    files: seq<Upload>, options: Options,
    now: nat, randomText: string, storedAt: string, respondedAt: string,
    store: SessionStore, effects: seq<Effect>): (o: Outcome)
    requires AllStructured(files)
    ensures var combined := CombineFinancialData(ResultsOf(files), options);
      var validation := ValidateFinancialData(combined);
      var id := GenerateSessionId(now, randomText);
      && (o.response.status == 200 || o.response.status == 400)
      && (o.response.status == 200 <==> validation.isValid)
      && (o.response.status == 400 ==>
            && o.response.body == Failure(IncompletePrefix + Join(validation.errors, ", "))
            && o.store == store
            && o.effects == effects)
      && (o.response.status == 200 ==>
            && o.response.body == Success(id, |files|, combined.structure, true, respondedAt)
            && o.store == StoreProcessedData(store, id, SessionRecord(combined, options, storedAt))
            && o.effects == effects + [SessionStored(id)])
  {
    var combined := CombineFinancialData(ResultsOf(files), options);
    var validation := ValidateFinancialData(combined);
    if !validation.isValid then
      Outcome(Response(400, Failure(IncompletePrefix + Join(validation.errors, ", "))), store, effects)
    else
      var id := GenerateSessionId(now, randomText);
      Outcome(
        Response(200, Success(id, |files|, combined.structure, true, respondedAt)),
        StoreProcessedData(store, id, SessionRecord(combined, options, storedAt)),
        effects + [SessionStored(id)])
  }

  /** The handler once the form is parsed: the file loop, then combination,
      validation and storage. A throw from any file is answered 500 with its
      message; otherwise the dataset is validated and, when complete, stored. */
  function HandleParsed(
    fields: Fields, uploads: seq<Option<Upload>>,
    now: nat, randomText: string, storedAt: string, respondedAt: string,
    store: SessionStore): (o: Outcome)
    ensures var files := Present(uploads);
      var k := FirstThrow(files);
      && o.response.status in {200, 400, 500}
      && (o.response.status != 200 ==> o.store == store)
      && (k < |files| <==> o.response.status == 500)
      && (k < |files| ==> o.response.body == Failure(ErrorText(files[k].outcome.error)))
      && (k == |files| ==>
            (o.response.status == 200 <==>
               ValidateFinancialData(CombineFinancialData(ResultsOf(files), OptionsOf(fields))).isValid))
      && (o.response.status == 400 ==>
            && AllStructured(files)
            && var errors := ValidateFinancialData(CombineFinancialData(ResultsOf(files), OptionsOf(fields))).errors;
            && o.response.body == Failure(IncompletePrefix + Join(errors, ", ")))
      && (o.response.status == 200 ==>
            && AllStructured(files)
            && var id := GenerateSessionId(now, randomText);
            && var options := OptionsOf(fields);
            && var combined := CombineFinancialData(ResultsOf(files), options);
            && ValidateFinancialData(combined).isValid
            && o.response.body == Success(id, |files|, combined.structure, true, respondedAt)
            && o.store == StoreProcessedData(store, id, SessionRecord(combined, options, storedAt)))
  {
    var p := ProcessUploads(uploads);
    ProcessUploadsOutcome(uploads);
    var effects := [FormParsed] + p.effects;
    if p.failure.Some? then
      Outcome(Response(500, Failure(ErrorText(p.failure.value))), store, effects)
    else
      Conclude(Present(uploads), OptionsOf(fields), now, randomText, storedAt, respondedAt, store, effects)
  }

  /** Storing a session adds one store to the trace and nothing else. */
  lemma StoreTrace(effects: seq<Effect>, id: string)
    ensures Removed(effects + [SessionStored(id)]) == Removed(effects)
    ensures Read(effects + [SessionStored(id)]) == Read(effects)
    ensures Stored(effects + [SessionStored(id)]) == Stored(effects) + [id]
  {
    TraceAppend(effects, [SessionStored(id)]);
    assert Removed([SessionStored(id)]) == [] && Read([SessionStored(id)]) == [];
    assert Stored([SessionStored(id)]) == [id];
  }

  /** Concluding adds no read and no removal to the trace, and one store
      exactly when the answer is 200. */
  lemma ConcludeTrace(
    files: seq<Upload>, options: Options,
    now: nat, randomText: string, storedAt: string, respondedAt: string,
    store: SessionStore, effects: seq<Effect>)
    requires AllStructured(files)
    ensures var o := Conclude(files, options, now, randomText, storedAt, respondedAt, store, effects);
      && Removed(o.effects) == Removed(effects)
      && Read(o.effects) == Read(effects)
      && Stored(o.effects) == Stored(effects) + (if o.response.status == 200 then [GenerateSessionId(now, randomText)] else [])
  {
    var o := Conclude(files, options, now, randomText, storedAt, respondedAt, store, effects);
    var id := GenerateSessionId(now, randomText);
    if o.response.status == 200 {
      assert o.effects == effects + [SessionStored(id)];
      StoreTrace(effects, id);
    } else {
      assert o.effects == effects;
      assert Stored(effects) + [] == Stored(effects);
    }
  }

  /** The side effects of a parsed request: every present file up to and
      including the first that throws is read, only those before it have
      their temporary file removed, and a session is stored only when the
      answer is 200, under the generated id. */
  lemma HandleParsedEffects(
    fields: Fields, uploads: seq<Option<Upload>>,
    now: nat, randomText: string, storedAt: string, respondedAt: string,
    store: SessionStore)
    ensures var o := HandleParsed(fields, uploads, now, randomText, storedAt, respondedAt, store);
      var files := Present(uploads);
      var k := FirstThrow(files);
      && Removed(o.effects) == Paths(files[..k])
      && Read(o.effects) == Paths(files[..if k < |files| then k + 1 else k])
      && Stored(o.effects) == (if o.response.status == 200 then [GenerateSessionId(now, randomText)] else [])
  {
    var p := ProcessUploads(uploads);
    var files := Present(uploads);
    ProcessUploadsOutcome(uploads);
    ProcessUploadsEffects(uploads);
    var effects := [FormParsed] + p.effects;
    ParsedTrace(p.effects);
    if p.failure.None? {
      assert files[..|files|] == files;
      ConcludeTrace(files, OptionsOf(fields), now, randomText, storedAt, respondedAt, store, effects);
    }
  }

  /** Parsing the form adds no read, removal or store to the trace. */
  lemma ParsedTrace(effects: seq<Effect>)
    ensures Removed([FormParsed] + effects) == Removed(effects)
    ensures Read([FormParsed] + effects) == Read(effects)
    ensures Stored([FormParsed] + effects) == Stored(effects)
  {
    TraceAppend([FormParsed], effects);
    assert Removed([FormParsed]) == [] && Read([FormParsed]) == [] && Stored([FormParsed]) == [];
  }

  /** The whole request. `keyValid` is the validator's verdict on the key
      header; `now` and `randomText` feed the session id; `storedAt` and
      `respondedAt` are the two ISO timestamps the handler takes. The method
      and key checks come before any other work. */
  function Handle(
    httpMethod: string, keyValid: bool, form: FormParse,
    now: nat, randomText: string, storedAt: string, respondedAt: string,
    store: SessionStore): (o: Outcome)
    ensures httpMethod != "POST" ==>
      o == Outcome(Response(405, Failure("Method not allowed")), store, [])
    ensures httpMethod == "POST" && !keyValid ==>
      o == Outcome(Response(401, Failure("Invalid API key")), store, [])
    ensures o.response.status in {200, 400, 401, 405, 500}
    ensures o.response.status != 200 ==> o.store == store && Stored(o.effects) == []
    ensures form.ParseFailed? && httpMethod == "POST" && keyValid ==>
      o == Outcome(Response(500, Failure(ErrorText(form.error))), store, [FormParsed])
    ensures form.Parsed? && httpMethod == "POST" && keyValid ==>
      o == HandleParsed(form.fields, form.uploads, now, randomText, storedAt, respondedAt, store)
    ensures o.response.status == 200 ==> form.Parsed? && Stored(o.effects) == [GenerateSessionId(now, randomText)]
    ensures httpMethod == "POST" && keyValid && form.Parsed? ==>
      var files := Present(form.uploads);
      FirstThrow(files) == |files| ==>
        (o.response.status == 200 <==>
           ValidateFinancialData(CombineFinancialData(ResultsOf(files), OptionsOf(form.fields))).isValid)
  {
    if httpMethod != "POST" then
      Outcome(Response(405, Failure("Method not allowed")), store, [])
    else if !keyValid then
      Outcome(Response(401, Failure("Invalid API key")), store, [])
    else
      match form
      case ParseFailed(e) =>
        assert Stored([FormParsed]) == [];
        Outcome(Response(500, Failure(ErrorText(e))), store, [FormParsed])
      case Parsed(fields, uploads) =>
        HandleParsedEffects(fields, uploads, now, randomText, storedAt, respondedAt, store);
        HandleParsed(fields, uploads, now, randomText, storedAt, respondedAt, store)
  }
}
