/** A job's list of stages: how it is read from a request, grown, and edited. White space and letter
    case are ASCII. */
module JobStages {
  import opened Wrappers
  import opened StageRule
  import Keywords

  /** Every reason for which a job or application request is turned down. */
  datatype Refusal =
    | StagesNotArray | StageNotObject | StageNameRequired | StageNamesNotUnique
    | JobNotFound | NotOwner | JobClosed | NotDraft | NoStagesToPublish | AlreadyClosed
    | StageNameTaken | StageNotFound
    | ProfileMissing | ResumeRequired | ResumeNotYours | AlreadyApplied | NoPipelineStages
    | StageRequired | ApplicationNotFound | StageNotOnJob | Transition(error: TransitionError)

  predicate IsSpace(c: char) { c == ' ' || '\t' <= c <= '\r' }

  function TrimLeft(s: string): string {
    if |s| > 0 && IsSpace(s[0]) then TrimLeft(s[1..]) else s
  }

  function TrimRight(s: string): string {
    if |s| > 0 && IsSpace(s[|s| - 1]) then TrimRight(s[..|s| - 1]) else s
  }

  function Trim(s: string): string { TrimRight(TrimLeft(s)) }

  /** A stage name as stored: trimmed and not empty. */
  predicate IsName(name: string) {
    |name| > 0 && !IsSpace(name[0]) && !IsSpace(name[|name| - 1])
  }

  lemma {:induction false} TrimmedLeft(s: string)
    ensures TrimLeft(s) == "" || !IsSpace(TrimLeft(s)[0])
  {
    if |s| > 0 && IsSpace(s[0]) { TrimmedLeft(s[1..]); }
  }

  lemma {:induction false} TrimmedRight(s: string)
    requires s == "" || !IsSpace(s[0])
    ensures TrimRight(s) == "" || IsName(TrimRight(s))
  {
    if |s| > 0 && IsSpace(s[|s| - 1]) { TrimmedRight(s[..|s| - 1]); }
  }

  lemma TrimGivesName(s: string)
    ensures Trim(s) == "" || IsName(Trim(s))
  {
    TrimmedLeft(s);
    TrimmedRight(TrimLeft(s));
  }

  predicate AllSpace(s: string) { forall k | 0 <= k < |s| :: IsSpace(s[k]) }

  lemma {:induction false} LeftSpace(s: string) returns (a: string)
    ensures AllSpace(a) && s == a + TrimLeft(s)
  {
    a := "";
    if |s| > 0 && IsSpace(s[0]) {
      var rest := LeftSpace(s[1..]);
      a := [s[0]] + rest;
    }
  }

  lemma {:induction false} RightSpace(s: string) returns (b: string)
    ensures AllSpace(b) && s == TrimRight(s) + b
  {
    b := "";
    if |s| > 0 && IsSpace(s[|s| - 1]) {
      var rest := RightSpace(s[..|s| - 1]);
      b := rest + [s[|s| - 1]];
    }
  }

  /** Trimming drops the white space at both ends, and nothing else. */
  lemma TrimExactly(s: string) returns (a: string, b: string)
    ensures AllSpace(a) && AllSpace(b) && s == a + Trim(s) + b
    ensures Trim(s) == "" || IsName(Trim(s))
  {
    a := LeftSpace(s);
    b := RightSpace(TrimLeft(s));
    TrimGivesName(s);
  }

  /** A name field of a request: absent or not a string, or a string. */
  function ParseName(name: Option<string>): Result<string, Refusal> {
    if name.None? || Trim(name.value) == "" then Err(StageNameRequired) else Ok(Trim(name.value))
  }

  datatype StageInput = NotAnObject | StageObject(name: Option<string>, isTerminal: bool)

  datatype StagesInput = Absent | NotAnArray | Array(stages: seq<StageInput>)

  datatype ParsedStage = ParsedStage(name: string, isTerminal: bool)

  const DEFAULT_JOB_STAGES := [
    ParsedStage("Applied", false), ParsedStage("Screening", false), ParsedStage("Interview", false),
    ParsedStage("Offer", false), ParsedStage("Hired", true), ParsedStage("Rejected", true)]

  /** The first offending element decides the refusal. */
  function ParseEach(inputs: seq<StageInput>): Result<seq<ParsedStage>, Refusal> {
    if |inputs| == 0 then Ok([])
    else
      match ParseEach(inputs[..|inputs| - 1])
      case Err(e) => Err(e)
      case Ok(before) =>
        var last := inputs[|inputs| - 1];
        if last.NotAnObject? then Err(StageNotObject)
        else
          match ParseName(last.name)
          case Err(e) => Err(e)
          case Ok(name) => Ok(before + [ParsedStage(name, last.isTerminal)])
  }

  function LowerNames(stages: seq<ParsedStage>): set<string> {
    set i | 0 <= i < |stages| :: Keywords.Lower(stages[i].name)
  }

  function ParseStages(input: StagesInput): Result<seq<ParsedStage>, Refusal> {
    match input
    case Absent => Ok(DEFAULT_JOB_STAGES)
    case NotAnArray => Err(StagesNotArray)
    case Array(stages) =>
      if |stages| == 0 then Err(StagesNotArray)
      else
        match ParseEach(stages)
        case Err(e) => Err(e)
        case Ok(parsed) => if |LowerNames(parsed)| != |parsed| then Err(StageNamesNotUnique) else Ok(parsed)
  }

  /** No two names agree up to letter case. */
  predicate NamesDiffer(stages: seq<ParsedStage>) {
    forall i, k | 0 <= i < k < |stages| :: Keywords.Lower(stages[i].name) != Keywords.Lower(stages[k].name)
  }

  function LowerList(stages: seq<ParsedStage>): seq<string> {
    seq(|stages|, i requires 0 <= i < |stages| => Keywords.Lower(stages[i].name))
  }

  lemma SetSizeCountsNames(stages: seq<ParsedStage>)
    ensures |LowerNames(stages)| == |stages| <==> NamesDiffer(stages)
  {
    var names := LowerList(stages);
    assert forall i | 0 <= i < |stages| :: names[i] == Keywords.Lower(stages[i].name);
    assert LowerNames(stages) == Elements(names) by {
      forall w | w in LowerNames(stages) ensures w in Elements(names) {
        var i :| 0 <= i < |stages| && w == Keywords.Lower(stages[i].name);
        assert names[i] == w;
      }
    }
    ElementCount(names);
    if Keywords.Distinct(names) {
      forall i, k | 0 <= i < k < |stages| ensures Keywords.Lower(stages[i].name) != Keywords.Lower(stages[k].name) {
        assert names[i] != names[k];
      }
    }
  }

  function Elements<T>(s: seq<T>): set<T> { set x | x in s }

  /** A sequence has as many elements as its length exactly when it repeats none. */
  lemma {:induction false} ElementCount<T>(s: seq<T>)
    ensures |Elements(s)| <= |s|
    ensures |Elements(s)| == |s| <==> Keywords.Distinct(s)
  {
    if |s| > 0 {
      var n := |s| - 1;
      ElementCount(s[..n]);
      assert s == s[..n] + [s[n]];
      assert Elements(s) == Elements(s[..n]) + {s[n]};
      assert Keywords.Distinct(s) <==> Keywords.Distinct(s[..n]) && s[n] !in s[..n];
    }
  }

  /** An element that is an object with a non-blank string name. */
  predicate WellFormed(input: StageInput) {
    input.StageObject? && input.name.Some? && Trim(input.name.value) != ""
  }

  function Parsed(input: StageInput): ParsedStage
    requires WellFormed(input)
  {
    ParsedStage(Trim(input.name.value), input.isTerminal)
  }

  predicate ParsesTo(inputs: seq<StageInput>, parsed: seq<ParsedStage>) {
    |parsed| == |inputs| && forall i | 0 <= i < |inputs| :: WellFormed(inputs[i]) && parsed[i] == Parsed(inputs[i])
  }

  predicate AllWellFormed(inputs: seq<StageInput>) {
    forall i | 0 <= i < |inputs| :: WellFormed(inputs[i])
  }

  lemma {:induction false} ParseEachExactly(inputs: seq<StageInput>)
    ensures ParseEach(inputs).Ok? <==> AllWellFormed(inputs)
    ensures ParseEach(inputs).Ok? ==> ParsesTo(inputs, ParseEach(inputs).value)
    ensures ParseEach(inputs).Err? ==> exists i | 0 <= i < |inputs| :: FirstBad(inputs, i, ParseEach(inputs).error)
  {
    if |inputs| > 0 {
      var n := |inputs| - 1;
      ParseEachExactly(inputs[..n]);
      if ParseEach(inputs[..n]).Err? {
        var i :| 0 <= i < n && FirstBad(inputs[..n], i, ParseEach(inputs[..n]).error);
        assert FirstBad(inputs, i, ParseEach(inputs).error);
      } else if !WellFormed(inputs[n]) {
        assert FirstBad(inputs, n, ParseEach(inputs).error);
      }
    }
  }

  /** Element `i` is the first offending one, and `error` is what is wrong with it. */
  predicate FirstBad(inputs: seq<StageInput>, i: nat, error: Refusal) {
    && i < |inputs| && !WellFormed(inputs[i]) && (forall k | 0 <= k < i :: WellFormed(inputs[k]))
    && error == (if inputs[i].NotAnObject? then StageNotObject else StageNameRequired)
  }

  lemma DefaultsDiffer()
    ensures NamesDiffer(DEFAULT_JOB_STAGES)
    ensures forall i | 0 <= i < |DEFAULT_JOB_STAGES| :: IsName(DEFAULT_JOB_STAGES[i].name)
  {
    forall i, k | 0 <= i < k < |DEFAULT_JOB_STAGES|
      ensures Keywords.Lower(DEFAULT_JOB_STAGES[i].name) != Keywords.Lower(DEFAULT_JOB_STAGES[k].name)
    {
      assert Keywords.Lower(DEFAULT_JOB_STAGES[i].name)[0] != Keywords.Lower(DEFAULT_JOB_STAGES[k].name)[0];
    }
  }

  /** A given list is accepted exactly when it is not empty, every element is an object with a
      non-blank name, and the trimmed names differ up to letter case; it is then taken over in order. */
  lemma ParseStagesExactly(stages: seq<StageInput>)
    ensures var r := ParseStages(Array(stages));
            && (r.Ok? ==> |stages| > 0 && ParsesTo(stages, r.value) && NamesDiffer(r.value))
            && (r.Err? ==> || (stages == [] && r.error.StagesNotArray?)
                           || (exists i | 0 <= i < |stages| :: FirstBad(stages, i, r.error))
                           || (r.error.StageNamesNotUnique? && exists p :: ParsesTo(stages, p) && !NamesDiffer(p)))
  {
    ParseEachExactly(stages);
    if ParseEach(stages).Ok? { SetSizeCountsNames(ParseEach(stages).value); }
  }

  lemma ParsedStagesOk(input: StagesInput)
    requires ParseStages(input).Ok?
    ensures var parsed := ParseStages(input).value;
            |parsed| > 0 && NamesDiffer(parsed) && forall i | 0 <= i < |parsed| :: IsName(parsed[i].name)
  {
    match input
    case Absent => DefaultsDiffer();
    case Array(stages) =>
      ParseStagesExactly(stages);
      forall i | 0 <= i < |stages| ensures IsName(ParseStages(input).value[i].name) {
        TrimGivesName(stages[i].name.value);
      }
  }

  // ---- The stored list.

  function StoreStages(job: nat, parsed: seq<ParsedStage>): seq<Stage> {
    seq(|parsed|, i requires 0 <= i < |parsed| => Stage(StageId(job, i), parsed[i].name, i + 1, parsed[i].isTerminal))
  }

  /** The largest order, or 0. */
  function MaxOrder(stages: seq<Stage>): nat {
    if |stages| == 0 then 0
    else
      var before, last := MaxOrder(stages[..|stages| - 1]), stages[|stages| - 1].order;
      if last > before then last else before
  }

  predicate NameTaken(stages: seq<Stage>, name: string, except: Option<StageId>) {
    exists i | 0 <= i < |stages| ::
        Some(stages[i].id) != except && Keywords.Lower(stages[i].name) == Keywords.Lower(name)
  }

  function AddStage(job: nat, stages: seq<Stage>, name: Option<string>, isTerminal: bool): Result<seq<Stage>, Refusal> {
    match ParseName(name)
    case Err(e) => Err(e)
    case Ok(trimmed) =>
      if NameTaken(stages, trimmed, None) then Err(StageNameTaken)
      else Ok(stages + [Stage(StageId(job, |stages|), trimmed, MaxOrder(stages) + 1, isTerminal)])
  }

  function FindById(stages: seq<Stage>, id: StageId): (r: Option<nat>)
    ensures r.Some? ==> r.value < |stages| && stages[r.value].id == id
    ensures r.None? ==> forall i | 0 <= i < |stages| :: stages[i].id != id
  {
    if |stages| == 0 then None
    else
      var before := FindById(stages[..|stages| - 1], id);
      if before.Some? then before
      else if stages[|stages| - 1].id == id then Some(|stages| - 1) else None
  }

  /** `name` and `isTerminal` change only when given; a given name may still not be a string. */
  function UpdateStage(stages: seq<Stage>, id: StageId, name: Option<Option<string>>, isTerminal: Option<bool>)
    : Result<seq<Stage>, Refusal>
  {
    var found := FindById(stages, id);
    if found.None? then Err(StageNotFound)
    else
      var i := found.value;
      var flagged := stages[i].(isTerminal := isTerminal.GetOr(stages[i].isTerminal));
      if name.None? then Ok(stages[i := flagged])
      else
        match ParseName(name.value)
        case Err(e) => Err(e)
        case Ok(trimmed) =>
          if NameTaken(stages, trimmed, Some(id)) then Err(StageNameTaken)
          else Ok(stages[i := flagged.(name := trimmed)])
  }

  /** `stage` placed into an ordered list, after the stages of the same order. */
  function Insert(stages: seq<Stage>, stage: Stage): (r: seq<Stage>)
    ensures |r| == |stages| + 1
    ensures r[|stages|]
            == if |stages| == 0 || stages[|stages| - 1].order <= stage.order then stage else stages[|stages| - 1]
  {
    if |stages| == 0 || stages[|stages| - 1].order <= stage.order then stages + [stage]
    else Insert(stages[..|stages| - 1], stage) + [stages[|stages| - 1]]
  }

  /** The stages by order, stably. */
  function SortByOrder(stages: seq<Stage>): seq<Stage> {
    if |stages| == 0 then [] else Insert(SortByOrder(stages[..|stages| - 1]), stages[|stages| - 1])
  }

  function LowestStage(stages: seq<Stage>): Option<Stage> {
    var sorted := SortByOrder(stages);
    if |sorted| == 0 then None else Some(sorted[0])
  }

  /** Not empty, ordered exactly 1..n, names trimmed. */
  predicate WellPlaced(job: nat, stages: seq<Stage>) {
    && |stages| > 0
    && (forall i | 0 <= i < |stages| ::
          stages[i].id == StageId(job, i) && stages[i].order == i + 1 && IsName(stages[i].name))
  }

  predicate NamesDistinct(stages: seq<Stage>) {
    forall i, k | 0 <= i < k < |stages| :: Keywords.Lower(stages[i].name) != Keywords.Lower(stages[k].name)
  }

  /** The invariant of a job's list: well placed, and with names distinct up to letter case. */
  predicate StagesOk(job: nat, stages: seq<Stage>) {
    WellPlaced(job, stages) && NamesDistinct(stages)
  }

  lemma OkIsNumbered(job: nat, stages: seq<Stage>)
    requires WellPlaced(job, stages)
    ensures Numbered(stages) && DistinctOrders(stages)
  {
  }

  /** Names that are there, not blank, and differ up to letter case. */
  predicate Acceptable(inputs: seq<StageInput>) {
    && |inputs| > 0
    && (forall i | 0 <= i < |inputs| ::
          inputs[i].StageObject? && inputs[i].name.Some? && Trim(inputs[i].name.value) != "")
    && (forall i, k | 0 <= i < k < |inputs| ::
          Keywords.Lower(Trim(inputs[i].name.value)) != Keywords.Lower(Trim(inputs[k].name.value)))
  }

  /** The stages a new job gets. */
  predicate IsNewList(job: nat, input: StagesInput, stages: seq<Stage>) {
    match input
    case Absent =>
      && |stages| == 6
      && (forall i | 0 <= i < 6 ::
            && stages[i].id == StageId(job, i) && stages[i].order == i + 1 && (stages[i].isTerminal <==> i >= 4)
            && stages[i].name == ["Applied", "Screening", "Interview", "Offer", "Hired", "Rejected"][i])
    case NotAnArray => false
    case Array(inputs) =>
      && |stages| == |inputs|
      && (forall i | 0 <= i < |inputs| ::
            && inputs[i].StageObject? && inputs[i].name.Some?
            && stages[i] == Stage(StageId(job, i), Trim(inputs[i].name.value), i + 1, inputs[i].isTerminal))
  }

  /** The answer to a list of stages. */
  ghost predicate IsListAnswer(input: StagesInput, refusal: Option<Refusal>) {
    match input
    case Absent => refusal.None?
    case NotAnArray => refusal == Some(StagesNotArray)
    case Array(inputs) =>
      && (refusal.None? <==> Acceptable(inputs))
      && (inputs == [] ==> refusal == Some(StagesNotArray))
      && (forall i, error | 0 <= i < |inputs| && FirstBad(inputs, i, error) :: refusal == Some(error))
      && (inputs != [] && AllWellFormed(inputs) && !Acceptable(inputs) ==> refusal == Some(StageNamesNotUnique))
  }

  lemma ParsedIsAcceptable(inputs: seq<StageInput>, parsed: seq<ParsedStage>)
    requires |inputs| > 0 && ParsesTo(inputs, parsed)
    ensures Acceptable(inputs) <==> NamesDiffer(parsed)
  {
    forall i, k | 0 <= i < k < |inputs|
      ensures Keywords.Lower(Trim(inputs[i].name.value)) == Keywords.Lower(parsed[i].name)
      ensures Keywords.Lower(Trim(inputs[k].name.value)) == Keywords.Lower(parsed[k].name)
    {
      assert parsed[i] == Parsed(inputs[i]) && parsed[k] == Parsed(inputs[k]);
    }
  }

  lemma FirstBadIsUnique(inputs: seq<StageInput>, i: nat, k: nat, error: Refusal, other: Refusal)
    requires FirstBad(inputs, i, error) && FirstBad(inputs, k, other)
    ensures i == k && error == other
  {
  }

  lemma ListAnswered(input: StagesInput)
    ensures IsListAnswer(input, match ParseStages(input) case Ok(_) => None case Err(e) => Some(e))
  {
    if input.Array? {
      var inputs := input.stages;
      ParseEachExactly(inputs);
      match ParseEach(inputs)
      case Ok(parsed) =>
        SetSizeCountsNames(parsed);
        if inputs != [] { ParsedIsAcceptable(inputs, parsed); }
      case Err(e) =>
        var k :| 0 <= k < |inputs| && FirstBad(inputs, k, e);
        forall i, error | 0 <= i < |inputs| && FirstBad(inputs, i, error) ensures error == e {
          FirstBadIsUnique(inputs, i, k, error, e);
        }
    }
  }

  lemma NewListStored(job: nat, input: StagesInput)
    requires ParseStages(input).Ok?
    ensures IsNewList(job, input, StoreStages(job, ParseStages(input).value))
  {
    if input.Array? {
      ParseEachExactly(input.stages);
      assert ParsesTo(input.stages, ParseStages(input).value);
    }
  }

  lemma StoredStagesOk(job: nat, input: StagesInput)
    requires ParseStages(input).Ok?
    ensures var parsed := ParseStages(input).value;
            && StagesOk(job, StoreStages(job, parsed))
            && |StoreStages(job, parsed)| == |parsed|
            && forall i | 0 <= i < |parsed| ::
                 && StoreStages(job, parsed)[i].name == parsed[i].name
                 && StoreStages(job, parsed)[i].isTerminal == parsed[i].isTerminal
  {
    ParsedStagesOk(input);
  }

  lemma {:induction false} MaxOrderOfNumbered(stages: seq<Stage>)
    requires forall i | 0 <= i < |stages| :: stages[i].order == i + 1
    ensures MaxOrder(stages) == |stages|
  {
    if |stages| > 0 { MaxOrderOfNumbered(stages[..|stages| - 1]); }
  }

  /** A stage is added exactly when its name is not blank and differs from all others up to case; it then
      comes last, in the next order, trimmed, and the list stays well-formed. */
  lemma AddKeepsOk(job: nat, stages: seq<Stage>, name: Option<string>, isTerminal: bool)
    requires StagesOk(job, stages)
    ensures AddStage(job, stages, name, isTerminal).Ok? <==>
              && name.Some? && Trim(name.value) != ""
              && forall i | 0 <= i < |stages| :: Keywords.Lower(stages[i].name) != Keywords.Lower(Trim(name.value))
    ensures AddStage(job, stages, name, isTerminal).Ok? ==>
              && AddStage(job, stages, name, isTerminal).value
                 == stages + [Stage(StageId(job, |stages|), Trim(name.value), |stages| + 1, isTerminal)]
              && StagesOk(job, AddStage(job, stages, name, isTerminal).value)
  {
    MaxOrderOfNumbered(stages);
    if name.Some? { TrimGivesName(name.value); }
  }

  /** Whatever the names, adding and updating keep a list well placed. */
  lemma AddKeepsPlaced(job: nat, stages: seq<Stage>, name: Option<string>, isTerminal: bool)
    requires WellPlaced(job, stages) && AddStage(job, stages, name, isTerminal).Ok?
    ensures WellPlaced(job, AddStage(job, stages, name, isTerminal).value)
    ensures AddStage(job, stages, name, isTerminal).value
         == stages + [Stage(StageId(job, |stages|), Trim(name.value), |stages| + 1, isTerminal)]
  {
    MaxOrderOfNumbered(stages);
    TrimGivesName(name.value);
  }

  lemma UpdateKeepsPlaced(job: nat, stages: seq<Stage>, id: StageId, name: Option<Option<string>>,
                          isTerminal: Option<bool>)
    requires WellPlaced(job, stages) && UpdateStage(stages, id, name, isTerminal).Ok?
    ensures WellPlaced(job, UpdateStage(stages, id, name, isTerminal).value)
    ensures |UpdateStage(stages, id, name, isTerminal).value| == |stages|
  {
    if name.Some? && name.value.Some? { TrimGivesName(name.value.value); }
  }

  /** The name is not that of any stage but the one with this id, up to case. */
  predicate NameFree(stages: seq<Stage>, name: string, id: StageId) {
    forall i | 0 <= i < |stages| && stages[i].id != id :: Keywords.Lower(stages[i].name) != Keywords.Lower(name)
  }

  /** An update is accepted exactly when the id is one of the list's and a given name is not blank and
      free; it then touches only that stage, its name and its flag each only when given, and the list
      stays well-formed. */
  lemma UpdateKeepsOk(job: nat, stages: seq<Stage>, id: StageId, name: Option<Option<string>>, isTerminal: Option<bool>)
    requires StagesOk(job, stages)
    ensures UpdateStage(stages, id, name, isTerminal).Ok? <==>
              && id.job == job && id.number < |stages|
              && (name.Some? ==>
                    name.value.Some? && Trim(name.value.value) != "" && NameFree(stages, Trim(name.value.value), id))
    ensures UpdateStage(stages, id, name, isTerminal).Ok? ==>
              var updated := UpdateStage(stages, id, name, isTerminal).value;
              && StagesOk(job, updated) && |updated| == |stages|
              && (forall i | 0 <= i < |stages| && i != id.number :: updated[i] == stages[i])
              && updated[id.number].isTerminal == isTerminal.GetOr(stages[id.number].isTerminal)
              && (name.None? ==> updated[id.number].name == stages[id.number].name)
              && (name.Some? ==> updated[id.number].name == Trim(name.value.value))
  {
    if name.Some? && name.value.Some? { TrimGivesName(name.value.value); }
    if id.job == job && id.number < |stages| { assert stages[id.number].id == id; }
  }

  lemma {:induction false} SortedStays(stages: seq<Stage>)
    requires forall i | 0 < i < |stages| :: stages[i - 1].order <= stages[i].order
    ensures SortByOrder(stages) == stages
  {
    if |stages| > 0 { SortedStays(stages[..|stages| - 1]); }
  }

  lemma LowestOfOk(job: nat, stages: seq<Stage>)
    requires WellPlaced(job, stages)
    ensures SortByOrder(stages) == stages && LowestStage(stages) == Some(stages[0])
  {
    SortedStays(stages);
  }

  predicate Ascending(stages: seq<Stage>) {
    forall i | 0 < i < |stages| :: stages[i - 1].order <= stages[i].order
  }

  lemma {:induction false} InsertAscends(stages: seq<Stage>, stage: Stage)
    requires Ascending(stages)
    ensures Ascending(Insert(stages, stage))
  {
    if |stages| > 0 && stages[|stages| - 1].order > stage.order { InsertAscends(stages[..|stages| - 1], stage); }
  }

  lemma {:induction false} InsertAdds(stages: seq<Stage>, stage: Stage)
    ensures multiset(Insert(stages, stage)) == multiset(stages) + multiset{stage}
  {
    if |stages| > 0 && stages[|stages| - 1].order > stage.order {
      var n := |stages| - 1;
      InsertAdds(stages[..n], stage);
      assert stages == stages[..n] + [stages[n]];
    }
  }

  /** The sort lists the same stages, in ascending order. */
  lemma {:induction false} SortSorts(stages: seq<Stage>)
    ensures Ascending(SortByOrder(stages)) && multiset(SortByOrder(stages)) == multiset(stages)
  {
    if |stages| > 0 {
      var n := |stages| - 1;
      SortSorts(stages[..n]);
      InsertAscends(SortByOrder(stages[..n]), stages[n]);
      InsertAdds(SortByOrder(stages[..n]), stages[n]);
      assert stages == stages[..n] + [stages[n]];
    }
  }

  lemma {:induction false} AscendingFrom(stages: seq<Stage>, i: nat)
    requires Ascending(stages) && i < |stages|
    ensures stages[0].order <= stages[i].order
  {
    if i > 0 { AscendingFrom(stages, i - 1); }
  }

  /** The stage applications start in: one of the list's, with the lowest order. */
  lemma LowestIs(stages: seq<Stage>)
    ensures LowestStage(stages).None? <==> stages == []
    ensures LowestStage(stages).Some? ==>
              && LowestStage(stages).value in stages
              && forall i | 0 <= i < |stages| :: LowestStage(stages).value.order <= stages[i].order
  {
    var sorted := SortByOrder(stages);
    SortSorts(stages);
    assert |multiset(sorted)| == |sorted| && |multiset(stages)| == |stages|;
    if sorted != [] {
      assert sorted[0] in multiset(stages);
      forall i | 0 <= i < |stages| ensures sorted[0].order <= stages[i].order {
        assert stages[i] in multiset(sorted);
        var k :| 0 <= k < |sorted| && sorted[k] == stages[i];
        AscendingFrom(sorted, k);
      }
    }
  }
}
