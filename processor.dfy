/** The annotation processor itself: the per-mapping emission order
    (generateCode), the batch over annotated elements with its exception trapping
    (process), and the log it keeps (log, logMessages). Generated types written to
    the Filer are recorded in `written`, in order. */
module Processor {
  import opened Wrappers
  import opened RifModel
  import opened JavaModel
  import opened Entities

  // ------------------------------------------------------------------ emission

  /** What one piece of work has put out so far, and the exception that stopped it,
      if any. Types already written stay written when a later one fails. */
  datatype Emission = Emission(written: seq<TypeSpec>, failure: Option<GenError>)

  /** generateCode: the column enum first, then the line entity when the layout has
      lines, then the header entity; the first generator to throw ends the mapping. */
  function CodeEmission(spec: MappingSpec): Emission
  {
    match ColumnEnum(spec)
    case Err(e) => Emission([], Some(e))
    case Ok(columnEnum) =>
      if spec.hasLines then
        match LineEntity(spec)
        case Err(e) => Emission([columnEnum], Some(e))
        case Ok(line) =>
          match HeaderEntity(spec)
          case Err(e) => Emission([columnEnum, line], Some(e))
          case Ok(header) => Emission([columnEnum, line, header], None)
      else
        match HeaderEntity(spec)
        case Err(e) => Emission([columnEnum], Some(e))
        case Ok(header) => Emission([columnEnum, header], None)
  }

  /** A mapping fails exactly when one of its generators does. A failing enum
      writes nothing; otherwise the enum comes first, and a failure of the line
      entity leaves the header entity ungenerated. On success the artifacts are
      enum, line (when there are lines), header. */
  lemma CodeEmissionOrder(spec: MappingSpec)
    ensures var em := CodeEmission(spec);
      && (em.failure.Some? <==> ColumnEnum(spec).Err? || (spec.hasLines && LineEntity(spec).Err?) || HeaderEntity(spec).Err?)
      && (ColumnEnum(spec).Err? ==> em == Emission([], Some(ColumnEnum(spec).error)))
      && (ColumnEnum(spec).Ok? ==> 1 <= |em.written| && em.written[0] == ColumnEnum(spec).value)
      && (ColumnEnum(spec).Ok? && spec.hasLines && LineEntity(spec).Err? ==>
            em == Emission([ColumnEnum(spec).value], Some(LineEntity(spec).error)))
      && (em.failure.None? ==>
            em.written == [ColumnEnum(spec).value]
                          + (if spec.hasLines then [LineEntity(spec).value] else [])
                          + [HeaderEntity(spec).value])
      && (em.failure.Some? ==>
            |em.written| == (if ColumnEnum(spec).Err? then 0 else if spec.hasLines && LineEntity(spec).Ok? then 2 else 1))
  {
  }

  /** The emissions of several pieces of work done in order, stopping at the first
      that throws: the exception escapes, so the emissions after it never happen. */
  function Sequenced(ems: seq<Emission>): Emission
    decreases |ems|
  {
    if ems == [] then Emission([], None)
    else
      var prior := Sequenced(ems[..|ems| - 1]);
      if prior.failure.Some? then prior
      else Emission(prior.written + ems[|ems| - 1].written, ems[|ems| - 1].failure)
  }

  /** generateCode for each mapping of a package, in order. */
  function CodeEmissions(specs: seq<MappingSpec>): seq<Emission>
  {
    seq(|specs|, i requires 0 <= i < |specs| => CodeEmission(specs[i]))
  }

  /** The mappings of one package in order, stopping at the first that throws. */
  function PackageEmission(specs: seq<MappingSpec>): Emission
  {
    Sequenced(CodeEmissions(specs))
  }

  /** Once a piece of work has failed, whatever follows it changes nothing. */
  lemma {:induction false} SequencedStops(ems: seq<Emission>, more: seq<Emission>)
    requires Sequenced(ems).failure.Some?
    ensures Sequenced(ems + more) == Sequenced(ems)
    decreases |more|
  {
    if more != [] {
      var init := more[..|more| - 1];
      assert (ems + more)[..|ems + more| - 1] == ems + init;
      SequencedStops(ems, init);
    } else {
      assert ems + more == ems;
    }
  }

  /** Without a failure, the output of the first part is followed by that of the
      second, and the second decides the failure. */
  lemma {:induction false} SequencedAppend(ems: seq<Emission>, more: seq<Emission>)
    requires Sequenced(ems).failure.None?
    ensures Sequenced(ems + more) == Emission(Sequenced(ems).written + Sequenced(more).written, Sequenced(more).failure)
    decreases |more|
  {
    if more == [] {
      assert ems + more == ems;
      assert Sequenced(ems).written + [] == Sequenced(ems).written;
    } else {
      var init := more[..|more| - 1];
      var last := more[|more| - 1];
      assert (ems + more)[..|ems + more| - 1] == ems + init;
      assert (ems + more)[|ems + more| - 1] == last;
      SequencedAppend(ems, init);
      if Sequenced(init).failure.None? {
        AppendAssoc(Sequenced(ems).written, Sequenced(init).written, last.written);
      }
    }
  }

  /** Doing one more piece of work after a prefix that has not failed. */
  lemma SequencedStep(ems: seq<Emission>, i: nat)
    requires i < |ems| && Sequenced(ems[..i]).failure.None?
    ensures Sequenced(ems[..i + 1]) == Emission(Sequenced(ems[..i]).written + ems[i].written, ems[i].failure)
  {
    assert ems[..i + 1][..i] == ems[..i];
  }

  /** A loop that stops at the first failure has done all the work there is. */
  lemma SequencedPrefix(ems: seq<Emission>, i: nat)
    requires i <= |ems|
    requires i < |ems| ==> Sequenced(ems[..i]).failure.Some?
    ensures Sequenced(ems) == Sequenced(ems[..i])
  {
    if i < |ems| {
      SequencedStops(ems[..i], ems[i..]);
      assert ems[..i] + ems[i..] == ems;
    } else {
      assert ems[..i] == ems;
    }
  }

  lemma CodeEmissionsAppend(specs: seq<MappingSpec>, more: seq<MappingSpec>)
    ensures CodeEmissions(specs + more) == CodeEmissions(specs) + CodeEmissions(more)
  {
  }

  /** Once a mapping has failed, the mappings after it are not generated. */
  lemma PackageEmissionStops(specs: seq<MappingSpec>, more: seq<MappingSpec>)
    requires PackageEmission(specs).failure.Some?
    ensures PackageEmission(specs + more) == PackageEmission(specs)
  {
    CodeEmissionsAppend(specs, more);
    SequencedStops(CodeEmissions(specs), CodeEmissions(more));
  }

  /** Without a failure, every mapping's artifacts are written in batch order. */
  lemma PackageEmissionAppend(specs: seq<MappingSpec>, more: seq<MappingSpec>)
    requires PackageEmission(specs).failure.None?
    ensures PackageEmission(specs + more).written == PackageEmission(specs).written + PackageEmission(more).written
    ensures PackageEmission(specs + more).failure == PackageEmission(more).failure
  {
    CodeEmissionsAppend(specs, more);
    SequencedAppend(CodeEmissions(specs), CodeEmissions(more));
  }

  // ------------------------------------------------------------------- logging

  /** javax.tools.Diagnostic.Kind. */
  datatype DiagnosticKind = ERROR | WARNING | MANDATORY_WARNING | NOTE | OTHER

  function KindName(kind: DiagnosticKind): string
  {
    match kind
    case ERROR => "ERROR"
    case WARNING => "WARNING"
    case MANDATORY_WARNING => "MANDATORY_WARNING"
    case NOTE => "NOTE"
    case OTHER => "OTHER"
  }

  /** The entry `log` keeps: the kind in brackets, the associated element when
      there is one, then the (already formatted) message. */
  function FormatLogEntry(kind: DiagnosticKind, element: Option<string>, message: string): string
  {
    match element
    case Some(e) => "[" + KindName(kind) + "] at '" + e + "': " + message
    case None => "[" + KindName(kind) + "]: " + message
  }

  /** Every entry opens with its bracketed kind and ends with its message, and an
      entry without an element determines its kind and message. */
  lemma LogEntryParts(kind: DiagnosticKind, element: Option<string>, message: string)
    ensures var entry := FormatLogEntry(kind, element, message); var tag := "[" + KindName(kind) + "]";
      && |entry| >= |tag| + |message|
      && entry[..|tag|] == tag
      && entry[|entry| - |message|..] == message
  {
    var entry := FormatLogEntry(kind, element, message);
    var tag := "[" + KindName(kind) + "]";
    match element
    case Some(e) =>
      assert entry == tag + (" at '" + e + "': " + message);
      assert entry == (tag + " at '" + e + "': ") + message;
    case None =>
      assert entry == tag + (": " + message);
      assert entry == (tag + ": ") + message;
  }

  /** The kind of an entry shows in its second character: the five kind names
      start with five different letters. */
  lemma KindLetter(kind: DiagnosticKind, element: Option<string>, message: string)
    ensures |FormatLogEntry(kind, element, message)| >= 2
    ensures FormatLogEntry(kind, element, message)[1] == KindName(kind)[0]
  {
    LogEntryParts(kind, element, message);
    var tag := "[" + KindName(kind) + "]";
    assert FormatLogEntry(kind, element, message)[1] == tag[1];
  }

  /** Entries of different kinds never coincide, whatever their elements and
      messages. */
  lemma KindTagsDiffer(k1: DiagnosticKind, k2: DiagnosticKind, el1: Option<string>, el2: Option<string>, m1: string, m2: string)
    requires k1 != k2
    ensures FormatLogEntry(k1, el1, m1) != FormatLogEntry(k2, el2, m2)
  {
    KindLetter(k1, el1, m1);
    KindLetter(k2, el2, m2);
  }

  /** An ERROR entry: one whose tag is `[ERROR]`. */
  predicate IsErrorEntry(entry: string)
  {
    |entry| >= 7 && entry[..7] == "[ERROR]"
  }

  lemma ErrorEntryIffErrorKind(kind: DiagnosticKind, element: Option<string>, message: string)
    ensures IsErrorEntry(FormatLogEntry(kind, element, message)) <==> kind == ERROR
  {
    LogEntryParts(kind, element, message);
    KindLetter(kind, element, message);
    var entry := FormatLogEntry(kind, element, message);
    if IsErrorEntry(entry) {
      assert entry[1] == "[ERROR]"[1] == 'E';
    }
  }

  /** An entry without an element gives back its kind and message. */
  lemma LogEntryWithoutElementIsInjective(k1: DiagnosticKind, k2: DiagnosticKind, m1: string, m2: string)
    requires FormatLogEntry(k1, None, m1) == FormatLogEntry(k2, None, m2)
    ensures k1 == k2 && m1 == m2
  {
    if k1 != k2 {
      KindTagsDiffer(k1, k2, None, None, m1, m2);
    }
    var prefix := "[" + KindName(k1) + "]: ";
    assert FormatLogEntry(k1, None, m1) == prefix + m1;
    assert FormatLogEntry(k2, None, m2) == prefix + m2;
    assert m1 == (prefix + m1)[|prefix|..];
  }

  // ---------------------------------------------------------------- processing

  /** The qualified name of the annotation the processor handles. */
  const GeneratorAnnotation: string := "gov.hhs.cms.bluebutton.data.model.codegen.annotations.RifLayoutsGenerator"

  /** The names and scope indices MappingSpec derives from a layout and its
      directives. MappingSpec is not part of this model, so they are given. */
  datatype DerivedNames = DerivedNames(
    columnEnum: string,
    lineEntity: string,
    lineEntityIdClass: string,
    lineEntityParentField: string,
    lineEntityLineNumberField: string,
    firstLineFieldIndex: nat,
    lastHeaderFieldIndex: int)

  /** One sheet of the spreadsheet: the layout RifLayout.parse reads from it. */
  datatype SheetLayout = SheetLayout(fields: seq<RifField>, derived: DerivedNames)

  /** What becomes of the spreadsheet an annotation names: the Filer cannot find
      or open it; opening or parsing the workbook throws (the exception's class is
      given); or both sheets are read. */
  datatype Spreadsheet =
    | Missing
    | Unreadable(exceptionName: string)
    | Parsed(beneficiary: SheetLayout, carrier: SheetLayout)

  /** A mapping of a package: the directives process(PackageElement) sets, over a
      parsed sheet. */
  function DirectedSpec(packageName: string, sheet: SheetLayout, headerEntity: string, headerTable: string,
                        headerEntityIdField: string, hasLines: bool, lineTable: string): MappingSpec
  {
    MappingSpec(packageName, sheet.fields, sheet.derived.columnEnum, headerEntity, headerTable, headerEntityIdField,
                hasLines, sheet.derived.lineEntity, lineTable, sheet.derived.lineEntityIdClass,
                sheet.derived.lineEntityParentField, sheet.derived.lineEntityLineNumberField,
                sheet.derived.firstLineFieldIndex, sheet.derived.lastHeaderFieldIndex)
  }

  /** The two mappings of every package, in order: beneficiaries without lines, and
      carrier claims with their lines. The beneficiary line table is never set and
      is not used without lines. */
  function PackageMappings(packageName: string, beneficiary: SheetLayout, carrier: SheetLayout): seq<MappingSpec>
  {
    [DirectedSpec(packageName, beneficiary, "Beneficiary", "Beneficiaries", "beneficiaryId", false, ""),
     DirectedSpec(packageName, carrier, "CarrierClaim", "CarrierClaims", "claimId", true, "CarrierClaimLines")]
  }

  /** One element annotated with the generator annotation. The textual renderings
      of the annotation and of the parsed mappings come from code outside the
      processor and are given as data. */
  datatype AnnotatedElement = AnnotatedElement(
    name: string,
    isPackage: bool,
    annotationText: string,
    spreadsheetResource: string,
    spreadsheet: Spreadsheet,
    mappingsText: string)

  /** What stops a run: a RifLayoutProcessingException (with its formatted
      message) or any other exception, known by its class. */
  datatype Failure = ProcessingError(message: string) | Fatal(exceptionName: string)

  /** The class of the exception each generator failure throws. */
  function ExceptionName(e: GenError): string
  {
    match e
    case UnhandledFieldType(_) => "java.lang.IllegalArgumentException"
    case NoValuePresent(_) => "java.util.NoSuchElementException"
    case IndexOutOfBounds(_, _) => "java.lang.IndexOutOfBoundsException"
    case StringIndexOutOfBounds(_) => "java.lang.StringIndexOutOfBoundsException"
    case NoEnumConstants(_) => "java.lang.IllegalArgumentException"
  }

  /** The entry logged when a failure reaches the top of `process`. A
      RifLayoutProcessingException's element reaches `log` as a format argument,
      not as the associated element, so neither entry carries an element. */
  function FailureEntry(f: Failure): string
  {
    match f
    case ProcessingError(message) => FormatLogEntry(ERROR, None, message)
    case Fatal(exceptionName) => FormatLogEntry(ERROR, None, "FATAL ERROR: " + exceptionName)
  }

  function NonPackageMessage(): string
  {
    "The " + GeneratorAnnotation + " annotation is only valid on packages (i.e. in package-info.java)."
  }

  function MissingSpreadsheetMessage(resource: string): string
  {
    "Unable to find or open specified spreadsheet: '" + resource + "'."
  }

  function StartedNote(el: AnnotatedElement): string
  {
    "Processing package annotated with: '" + el.annotationText + "'."
  }

  function FoundNote(el: AnnotatedElement): string
  {
    "Found spreadsheet: '" + el.spreadsheetResource + "'."
  }

  function ParsedNote(el: AnnotatedElement): string
  {
    "Generated mapping specification: '" + el.mappingsText + "'."
  }

  /** The log, the output and the failure of a run so far. */
  datatype Run = Run(log: seq<string>, written: seq<TypeSpec>, failure: Option<Failure>)

  /** One annotated element: anything but a package fails at once; a package logs
      that it is processed, needs its spreadsheet, logs that it found it, reads
      both sheets, logs the mappings, and then generates them. */
  function ElementRun(el: AnnotatedElement): Run
  {
    if !el.isPackage then Run([], [], Some(ProcessingError(NonPackageMessage())))
    else
      var started := FormatLogEntry(NOTE, Some(el.name), StartedNote(el));
      var found := FormatLogEntry(NOTE, Some(el.name), FoundNote(el));
      match el.spreadsheet
      case Missing => Run([started], [], Some(ProcessingError(MissingSpreadsheetMessage(el.spreadsheetResource))))
      case Unreadable(exceptionName) => Run([started, found], [], Some(Fatal(exceptionName)))
      case Parsed(beneficiary, carrier) =>
        var em := PackageEmission(PackageMappings(el.name, beneficiary, carrier));
        var notes := [started, found, FormatLogEntry(NOTE, Some(el.name), ParsedNote(el))];
        Run(notes, em.written, match em.failure case None => None case Some(e) => Some(Fatal(ExceptionName(e))))
  }

  /** A package whose sheets were read logs three notes and generates the
      beneficiary mapping (an enum and a header entity, no line entity) and then,
      unless that failed, the carrier mapping; the run fails exactly when one of
      them does. */
  lemma ParsedPackageRun(el: AnnotatedElement)
    requires el.isPackage && el.spreadsheet.Parsed?
    ensures var specs := PackageMappings(el.name, el.spreadsheet.beneficiary, el.spreadsheet.carrier);
      var bene := CodeEmission(specs[0]); var carrier := CodeEmission(specs[1]); var r := ElementRun(el);
      && |r.log| == 3
      && !specs[0].hasLines && specs[1].hasLines
      && |bene.written| <= 2
      && (bene.failure.Some? ==> r.written == bene.written && r.failure == Some(Fatal(ExceptionName(bene.failure.value))))
      && (bene.failure.None? ==> r.written == bene.written + carrier.written)
      && (bene.failure.None? ==> (r.failure.None? <==> carrier.failure.None?))
  {
    var specs := PackageMappings(el.name, el.spreadsheet.beneficiary, el.spreadsheet.carrier);
    CodeEmissionOrder(specs[0]);
    PackageOfTwo(specs);
    ParsedElementRun(el);
    PairOutcome(CodeEmission(specs[0]), CodeEmission(specs[1]), PackageEmission(specs), ElementRun(el));
  }

  /** Two mappings are generated as a pair of emissions. */
  lemma PackageOfTwo(specs: seq<MappingSpec>)
    requires |specs| == 2
    ensures PackageEmission(specs) == Sequenced([CodeEmission(specs[0]), CodeEmission(specs[1])])
  {
    assert CodeEmissions(specs) == [CodeEmission(specs[0]), CodeEmission(specs[1])];
  }

  /** A package whose sheets were read logs three notes and reports its package
      emission, with a generator's exception as a fatal error. */
  lemma ParsedElementRun(el: AnnotatedElement)
    requires el.isPackage && el.spreadsheet.Parsed?
    ensures var em := PackageEmission(PackageMappings(el.name, el.spreadsheet.beneficiary, el.spreadsheet.carrier));
      var r := ElementRun(el);
      && |r.log| == 3 && r.written == em.written
      && (em.failure.None? ==> r.failure.None?)
      && (em.failure.Some? ==> r.failure == Some(Fatal(ExceptionName(em.failure.value))))
  {
  }

  /** The outcome of a run made of two emissions, the second only when the first
      did not fail. */
  lemma PairOutcome(first: Emission, second: Emission, em: Emission, r: Run)
    requires em == Sequenced([first, second])
    requires r.written == em.written
    requires em.failure.None? ==> r.failure.None?
    requires em.failure.Some? ==> r.failure == Some(Fatal(ExceptionName(em.failure.value)))
    ensures first.failure.Some? ==> r.written == first.written && r.failure == Some(Fatal(ExceptionName(first.failure.value)))
    ensures first.failure.None? ==> r.written == first.written + second.written
    ensures first.failure.None? ==> (r.failure.None? <==> second.failure.None?)
  {
    SequencedPair(first, second);
  }

  /** Two pieces of work: the second only when the first did not fail. */
  lemma SequencedPair(first: Emission, second: Emission)
    ensures Sequenced([first, second]) ==
      if first.failure.Some? then first else Emission(first.written + second.written, second.failure)
  {
    var ems := [first, second];
    assert ems[..1] == [first] && ems[..1][..0] == [];
    assert Sequenced([first]) == Emission([] + first.written, first.failure);
    assert [] + first.written == first.written;
  }

  /** Several runs in order, stopping at the first that fails. */
  function Chained(runs: seq<Run>): Run
    decreases |runs|
  {
    if runs == [] then Run([], [], None)
    else
      var prior := Chained(runs[..|runs| - 1]);
      if prior.failure.Some? then prior
      else
        var r := runs[|runs| - 1];
        Run(prior.log + r.log, prior.written + r.written, r.failure)
  }

  function ElementRuns(elements: seq<AnnotatedElement>): seq<Run>
  {
    seq(|elements|, i requires 0 <= i < |elements| => ElementRun(elements[i]))
  }

  /** The annotated elements in order, stopping at the first failure. */
  function ElementsRun(elements: seq<AnnotatedElement>): Run
  {
    Chained(ElementRuns(elements))
  }

  /** The whole log of a `process` call whose elements ran as given: the trigger
      note, the elements' notes, and one ERROR entry for the failure that stopped
      the run, if any. */
  function RunLog(triggerNote: string, run: Run): seq<string>
  {
    [FormatLogEntry(NOTE, None, triggerNote)] + run.log
    + match run.failure case None => [] case Some(f) => [FailureEntry(f)]
  }

  function ProcessLog(triggerNote: string, elements: seq<AnnotatedElement>): seq<string>
  {
    RunLog(triggerNote, ElementsRun(elements))
  }

  /** Runs that log only notes chain into a run that logs only notes. */
  lemma {:induction false} ChainedLogsOnlyNotes(runs: seq<Run>)
    requires forall k, i :: 0 <= k < |runs| && 0 <= i < |runs[k].log| ==> !IsErrorEntry(runs[k].log[i])
    ensures forall i :: 0 <= i < |Chained(runs).log| ==> !IsErrorEntry(Chained(runs).log[i])
    decreases |runs|
  {
    if runs != [] {
      var init := runs[..|runs| - 1];
      assert forall k :: 0 <= k < |init| ==> init[k] == runs[k];
      ChainedLogsOnlyNotes(init);
      var prior := Chained(init);
      if prior.failure.None? {
        var r := runs[|runs| - 1];
        var log := prior.log + r.log;
        assert Chained(runs).log == log;
        forall i | 0 <= i < |log|
          ensures !IsErrorEntry(log[i])
        {
          if i < |prior.log| {
            assert log[i] == prior.log[i];
          } else {
            assert log[i] == r.log[i - |prior.log|];
          }
        }
      }
    }
  }

  /** No entry an element logs is an ERROR entry. */
  lemma ElementNotes(el: AnnotatedElement)
    ensures forall i :: 0 <= i < |ElementRun(el).log| ==> !IsErrorEntry(ElementRun(el).log[i])
  {
    ErrorEntryIffErrorKind(NOTE, Some(el.name), StartedNote(el));
    ErrorEntryIffErrorKind(NOTE, Some(el.name), FoundNote(el));
    ErrorEntryIffErrorKind(NOTE, Some(el.name), ParsedNote(el));
  }

  /** A run logs only notes: no entry before the failure is an ERROR entry. */
  lemma RunLogsOnlyNotes(elements: seq<AnnotatedElement>)
    ensures forall i :: 0 <= i < |ElementsRun(elements).log| ==> !IsErrorEntry(ElementsRun(elements).log[i])
  {
    var runs := ElementRuns(elements);
    forall k, i | 0 <= k < |runs| && 0 <= i < |runs[k].log|
      ensures !IsErrorEntry(runs[k].log[i])
    {
      ElementNotes(elements[k]);
    }
    ChainedLogsOnlyNotes(runs);
  }

  /** The failure entry is an ERROR entry. */
  lemma FailureEntryIsError(f: Failure)
    ensures IsErrorEntry(FailureEntry(f))
  {
    match f
    case ProcessingError(message) =>
      ErrorEntryIffErrorKind(ERROR, None, message);
    case Fatal(exceptionName) =>
      ErrorEntryIffErrorKind(ERROR, None, "FATAL ERROR: " + exceptionName);
  }

  /** Around a run that logs only notes, the log holds an ERROR entry exactly when
      the run failed, and then as its last entry. */
  lemma RunLogErrorEntries(triggerNote: string, run: Run)
    requires forall i :: 0 <= i < |run.log| ==> !IsErrorEntry(run.log[i])
    ensures var log := RunLog(triggerNote, run);
      && |log| == 1 + |run.log| + (if run.failure.Some? then 1 else 0)
      && (run.failure.Some? ==> log[|log| - 1] == FailureEntry(run.failure.value))
      && forall i :: 0 <= i < |log| ==> (IsErrorEntry(log[i]) <==> run.failure.Some? && i == |log| - 1)
  {
    var log := RunLog(triggerNote, run);
    ErrorEntryIffErrorKind(NOTE, None, triggerNote);
    if run.failure.Some? {
      FailureEntryIsError(run.failure.value);
    }
    forall i | 0 <= i < |log|
      ensures IsErrorEntry(log[i]) <==> run.failure.Some? && i == |log| - 1
    {
      if 0 < i <= |run.log| {
        assert log[i] == run.log[i - 1];
      }
    }
  }

  /** `process` logs an ERROR entry exactly when the run failed, and then it is the
      last entry: every other entry is a note. */
  lemma ErrorEntryIffFailure(triggerNote: string, elements: seq<AnnotatedElement>)
    ensures var log := ProcessLog(triggerNote, elements); var run := ElementsRun(elements);
      && |log| == 1 + |run.log| + (if run.failure.Some? then 1 else 0)
      && (run.failure.Some? ==> log[|log| - 1] == FailureEntry(run.failure.value))
      && forall i :: 0 <= i < |log| ==> (IsErrorEntry(log[i]) <==> run.failure.Some? && i == |log| - 1)
  {
    RunLogsOnlyNotes(elements);
    RunLogErrorEntries(triggerNote, ElementsRun(elements));
  }

  /** Once a run has failed, whatever follows it changes nothing. */
  lemma {:induction false} ChainedStops(runs: seq<Run>, more: seq<Run>)
    requires Chained(runs).failure.Some?
    ensures Chained(runs + more) == Chained(runs)
    decreases |more|
  {
    if more != [] {
      var init := more[..|more| - 1];
      assert (runs + more)[..|runs + more| - 1] == runs + init;
      ChainedStops(runs, init);
    } else {
      assert runs + more == runs;
    }
  }

  /** Once an element has failed, later elements are not processed at all. */
  lemma ElementsRunStops(elements: seq<AnnotatedElement>, more: seq<AnnotatedElement>)
    requires ElementsRun(elements).failure.Some?
    ensures ElementsRun(elements + more) == ElementsRun(elements)
  {
    assert ElementRuns(elements + more) == ElementRuns(elements) + ElementRuns(more);
    ChainedStops(ElementRuns(elements), ElementRuns(more));
  }

  /** Proof helper for the fold lemmas and the processor's loops: regrouping
      appended logs and outputs. */
  lemma AppendAssoc<T>(a: seq<T>, b: seq<T>, c: seq<T>)
    ensures a + (b + c) == (a + b) + c
  {
  }

  /** Processing one more element after a prefix that has not failed. */
  lemma ChainedStep(runs: seq<Run>, i: nat)
    requires i < |runs| && Chained(runs[..i]).failure.None?
    ensures var prior := Chained(runs[..i]);
      Chained(runs[..i + 1]) == Run(prior.log + runs[i].log, prior.written + runs[i].written, runs[i].failure)
  {
    assert runs[..i + 1][..i] == runs[..i];
  }

  /** The loop of `process` ends with the whole run: all elements done, or a
      failure after which the rest are skipped. */
  lemma ChainedPrefix(runs: seq<Run>, i: nat)
    requires i <= |runs|
    requires i < |runs| ==> Chained(runs[..i]).failure.Some?
    ensures Chained(runs) == Chained(runs[..i])
  {
    if i < |runs| {
      ChainedStops(runs[..i], runs[i..]);
      assert runs[..i] + runs[i..] == runs;
    } else {
      assert runs[..i] == runs;
    }
  }

  // ----------------------------------------------------------------- processor

  class RifLayoutsProcessor {
    /** Every entry logged so far, in order. */
    var logMessages: seq<string>
    /** Every type handed to the Filer so far, in order. */
    var written: seq<TypeSpec>

    constructor ()
      ensures logMessages == [] && written == []
    {
      logMessages := [];
      written := [];
    }

    /** log: one formatted entry appended to logMessages (the Messager call is not
        modelled). */
    method Log(kind: DiagnosticKind, element: Option<string>, message: string)
      modifies this
      ensures logMessages == old(logMessages) + [FormatLogEntry(kind, element, message)]
      ensures written == old(written)
    {
      logMessages := logMessages + [FormatLogEntry(kind, element, message)];
    }

    /** generateCode: each generator writes its type as soon as it is built. */
    method GenerateCode(spec: MappingSpec) returns (failure: Option<GenError>)
      modifies this
      ensures written == old(written) + CodeEmission(spec).written
      ensures failure == CodeEmission(spec).failure
      ensures logMessages == old(logMessages)
    {
      var columnEnum := GenerateColumnEnum(spec);
      if columnEnum.Err? {
        return Some(columnEnum.error);
      }
      written := written + [columnEnum.value];
      if spec.hasLines {
        var line := GenerateLineEntity(spec);
        if line.Err? {
          return Some(line.error);
        }
        written := written + [line.value];
      }
      var header := GenerateHeaderEntity(spec);
      if header.Err? {
        return Some(header.error);
      }
      written := written + [header.value];
      failure := None;
    }

    /** The loop of process(PackageElement): every mapping in order until one
        throws. */
    method GenerateMappings(specs: seq<MappingSpec>) returns (failure: Option<GenError>)
      modifies this
      ensures written == old(written) + PackageEmission(specs).written
      ensures failure == PackageEmission(specs).failure
      ensures logMessages == old(logMessages)
    {
      ghost var before := written;
      ghost var ems := CodeEmissions(specs);
      for i := 0 to |specs|
        invariant Sequenced(ems[..i]).failure.None?
        invariant written == before + Sequenced(ems[..i]).written
        invariant logMessages == old(logMessages)
      {
        ghost var prior := Sequenced(ems[..i]).written;
        SequencedStep(ems, i);
        var e := GenerateCode(specs[i]);
        AppendAssoc(before, prior, ems[i].written);
        if e.Some? {
          SequencedPrefix(ems, i + 1);
          return e;
        }
      }
      SequencedPrefix(ems, |specs|);
      failure := None;
    }

    /** process(PackageElement): the notes, the spreadsheet, then the mappings. */
    method ProcessPackage(el: AnnotatedElement) returns (failure: Option<Failure>)
      requires el.isPackage
      modifies this
      ensures logMessages == old(logMessages) + ElementRun(el).log
      ensures written == old(written) + ElementRun(el).written
      ensures failure == ElementRun(el).failure
    {
      Log(NOTE, Some(el.name), StartedNote(el));
      if el.spreadsheet.Missing? {
        return Some(ProcessingError(MissingSpreadsheetMessage(el.spreadsheetResource)));
      }
      Log(NOTE, Some(el.name), FoundNote(el));
      if el.spreadsheet.Unreadable? {
        return Some(Fatal(el.spreadsheet.exceptionName));
      }
      var specs := PackageMappings(el.name, el.spreadsheet.beneficiary, el.spreadsheet.carrier);
      Log(NOTE, Some(el.name), ParsedNote(el));
      ghost var notes := [FormatLogEntry(NOTE, Some(el.name), StartedNote(el)),
                          FormatLogEntry(NOTE, Some(el.name), FoundNote(el)),
                          FormatLogEntry(NOTE, Some(el.name), ParsedNote(el))];
      assert logMessages == old(logMessages) + notes;
      var e := GenerateMappings(specs);
      failure := if e.Some? then Some(Fatal(ExceptionName(e.value))) else None;
    }

    /** One annotated element of the round: anything but a package throws the
        processing exception at once. */
    method ProcessElement(el: AnnotatedElement) returns (failure: Option<Failure>)
      modifies this
      ensures logMessages == old(logMessages) + ElementRun(el).log
      ensures written == old(written) + ElementRun(el).written
      ensures failure == ElementRun(el).failure
    {
      if !el.isPackage {
        return Some(ProcessingError(NonPackageMessage()));
      }
      failure := ProcessPackage(el);
    }

    /** process(Set, RoundEnvironment): every exception is caught and logged as
        one ERROR entry, and the processor always reports the annotations as
        handled. */
    method Process(triggerNote: string, elements: seq<AnnotatedElement>) returns (handled: bool)
      modifies this
      ensures handled
      ensures logMessages == old(logMessages) + ProcessLog(triggerNote, elements)
      ensures written == old(written) + ElementsRun(elements).written
    {
      Log(NOTE, None, triggerNote);
      ghost var startLog := logMessages;
      ghost var startWritten := written;
      ghost var runs := ElementRuns(elements);
      var failure: Option<Failure> := None;
      var i := 0;
      while i < |elements| && failure.None?
        invariant 0 <= i <= |elements|
        invariant logMessages == startLog + Chained(runs[..i]).log
        invariant written == startWritten + Chained(runs[..i]).written
        invariant failure == Chained(runs[..i]).failure
        decreases |elements| - i
      {
        ghost var prior := Chained(runs[..i]);
        ChainedStep(runs, i);
        failure := ProcessElement(elements[i]);
        AppendAssoc(startLog, prior.log, runs[i].log);
        AppendAssoc(startWritten, prior.written, runs[i].written);
        i := i + 1;
      }
      ChainedPrefix(runs, i);
      ghost var run := ElementsRun(elements);
      ghost var trigger := [FormatLogEntry(NOTE, None, triggerNote)];
      AppendAssoc(old(logMessages), trigger, run.log);
      if failure.Some? {
        Log(ERROR, None, if failure.value.ProcessingError? then failure.value.message
                         else "FATAL ERROR: " + failure.value.exceptionName);
        AppendAssoc(old(logMessages), trigger + run.log, [FailureEntry(failure.value)]);
      } else {
        assert trigger + run.log + [] == trigger + run.log;
      }
      handled := true;
    }
  }
}
