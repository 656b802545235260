/** The capture application: admission, one recording directory per connection, drain, finalization, output bound. */
module Capture {
  import opened Wire
  import opened Records
  import opened RecorderRules
  import Maps

  datatype Config = Config(run: nat, active: nat, file: nat, summary: nat, status: nat)

  /** The bound that is computed before anything runs; `None` is its overflow error. */
  function CheckedOutputBound(recordings: nat, fileBytes: nat, summaryBytes: nat, statusBytes: nat): Option<nat> {
    if fileBytes * 3 > U64_MAX then None
    else
      var perRecording := fileBytes * 3 + summaryBytes;
      if perRecording > U64_MAX then None
      else if recordings * perRecording > U64_MAX then None
      else if recordings * perRecording + statusBytes > U64_MAX then None
      else Some(recordings * perRecording + statusBytes)
  }

  /** For a configuration that may record at all, the check refuses exactly the bounds that do not fit. */
  lemma BoundExact(config: Config)
    requires config.run > 0
    ensures var exact := config.run * (3 * config.file + config.summary) + config.status;
      CheckedOutputBound(config.run, config.file, config.summary, config.status)
        == if exact <= U64_MAX then Some(exact) else None
  {
    var perRecording := config.file * 3 + config.summary;
    assert perRecording <= config.run * perRecording by {
      MulAtLeast(config.run, perRecording);
    }
  }

  lemma MulAtLeast(times: nat, value: nat)
    requires times > 0
    ensures value <= times * value
  {
    assert times * value == value + (times - 1) * value;
  }

  datatype Outcome = Observed | NotObserved

  /** How a summary was attempted: its outcome, and whether it was written. */
  datatype Attempt = Attempt(outcome: Outcome, written: bool)

  /** A recording directory on disk: its three files, the bytes of its summary and the attempts to write that. */
  datatype Directory = Directory(files: Outputs, summary: nat, attempts: seq<Attempt>)
  {
    function Bytes(): nat {
      |files.wire| + |files.wave| + |files.events| + summary
    }

    predicate Within(config: Config) {
      Fits(config, files) && summary <= config.summary
    }
  }

  /** What the limited writers guarantee of their files. */
  predicate Fits(config: Config, files: Outputs) {
    |files.wire| <= config.file && |files.wave| <= config.file && |files.events| <= config.file
  }

  /** A connection that is still recorded, with what its recorder remembers, or whose recording failed. */
  datatype Entry = Active(memory: Memory) | Failed

  /** The rate of every recording. */
  const RATE := Khz8

  /** An end that counts as a success. */
  predicate SuccessfulTerminal(reason: EndReason) {
    reason.CleanEof? || reason.Terminated?
  }

  /** One attempt to write a JSON file of `size` bytes: created or not, how much was taken, flushed or not. */
  datatype Document = Document(size: nat, created: bool, taken: nat, flushed: bool)
  {
    function Kept(cap: nat): (kept: nat)
      ensures kept <= cap
    {
      if !created || size > cap then 0 else if taken < size then taken else size
    }

    predicate Complete(cap: nat) {
      created && size <= cap && taken >= size && flushed
    }
  }

  /** What reaches the disk of one file: a prefix, all of it if the attempt completes, nothing beyond its limit. */
  lemma WrittenWhole(document: Document, cap: nat)
    ensures var kept := document.Kept(cap);
      && (kept != 0 ==> document.created && document.size <= cap && kept <= document.size && kept <= document.taken)
      && (document.Complete(cap) <==>
            document.created && document.size <= cap && document.flushed && kept == document.size)
  {
  }

  /** `directories` and `status` are what is on disk; the other fields are the loop's own. */
  datatype CaptureState = CaptureState(
    reserved: nat,
    entries: map<ConnectionId, Entry>,
    directories: map<ConnectionId, Directory>,
    status: nat,
    stopping: bool,
    bad: bool)

  const START := CaptureState(0, map[], map[], 0, false, false)

  /**
   * What the file system makes of one record: the directory and the recorder it may need, the outputs after the
   * record, the outputs after the recorder finished, and the summary. `description` is the diagnostic line.
   */
  datatype Outside = Outside(
    directoryMade: bool,
    headerMade: bool,
    description: seq<byte>,
    recorded: bool,
    files: Outputs,
    finished: bool,
    final: Outputs,
    summary: Document)

  /** What happens to a run, in any order. */
  datatype Step =
    | StopWon
    | Received(record: Record, outside: Outside)
    | Finalize(id: ConnectionId, outside: Outside)
    | WriteStatus(status: Document)

  function EmptyHeader(): Outputs {
    Outputs([], if WaveHeader(0, RATE).Ok? then WaveHeader(0, RATE).value else [], [])
  }

  /** Creating a recorder and giving it the first record. */
  predicate Opens(record: Record, outside: Outside) {
    if !outside.headerMade then !outside.recorded && Provisional(RATE, false, outside.files)
    else
      Preserves(record.connection, RATE, FRESH, EmptyHeader(), record,
                outside.description, outside.recorded, outside.files)
  }

  /** What the recorder and the limited writers allow the file system to answer; no other answer can be given. */
  predicate Possible(config: Config, state: CaptureState, step: Step) {
    match step
    case Received(record, outside) =>
      var id := record.connection;
      if record.kind.Connected? then Fits(config, outside.files) && Opens(record, outside)
      else if !Recording(state, id) then true
      else
        var memory, files := state.entries[id].memory, state.directories[id].files;
        && Fits(config, outside.files)
        && Preserves(id, RATE, memory, files, record, outside.description, outside.recorded, outside.files)
        && (outside.recorded && record.kind.Ended? ==>
              Fits(config, outside.final) && Finalizes(RATE, outside.files, outside.finished, outside.final))
    case Finalize(id, outside) =>
      Recording(state, id) ==>
        && Fits(config, outside.final)
        && Finalizes(RATE, state.directories[id].files, outside.finished, outside.final)
    case _ => true
  }

  function Spoil(state: CaptureState): CaptureState {
    state.(bad := true, stopping := true)
  }

  function Admit(config: Config, state: CaptureState, record: Record, outside: Outside): CaptureState {
    var id := record.connection;
    if state.stopping then state
    else if state.reserved == config.run || |state.entries| >= config.active then Spoil(state)
    else
      var reserved := state.(reserved := state.reserved + 1);
      if !outside.directoryMade || id in state.directories then Spoil(reserved)
      else if outside.recorded then
        Create(reserved, id, Entry.Active(Remember(id, FRESH, record)), outside.files)
      else Spoil(Create(reserved, id, Entry.Failed, outside.files))
  }

  /** The memory after a record that validation accepts. */
  function Remember(id: ConnectionId, memory: Memory, record: Record): Memory {
    match Validate(id, RATE, memory, record)
    case Ok(phase) => Accept(memory, record, phase)
    case Err(_) => memory
  }

  /** A new directory with its entry; an entry that starts as failed spoils the run. */
  function Create(state: CaptureState, id: ConnectionId, entry: Entry, files: Outputs): CaptureState {
    state.(directories := state.directories[id := Directory(files, 0, [])],
             entries := state.entries[id := entry],
             bad := state.bad || entry.Failed?)
  }

  function Summarized(config: Config, directory: Directory, files: Outputs,
                      outcome: Outcome, summary: Document): Directory {
    var attempt := Attempt(outcome, summary.Complete(config.summary));
    Directory(files, summary.Kept(config.summary), directory.attempts + [attempt])
  }

  /** One summary attempt: the entry is given up, and at most the summary limit reaches the disk. */
  function Summarize(config: Config, state: CaptureState, id: ConnectionId, files: Outputs,
                     outcome: Outcome, summary: Document)
    : CaptureState
    requires id in state.directories
  {
    state.(entries := state.entries - {id},
             directories := state.directories[id := Summarized(config, state.directories[id], files, outcome, summary)],
             bad := state.bad || outcome.NotObserved? || !summary.Complete(config.summary))
  }

  /** A failed entry keeps its directory and waits for the finalization after the drain. */
  function Fail(state: CaptureState, id: ConnectionId, files: Outputs): CaptureState
    requires id in state.directories
  {
    Spoil(Kept(state, id, Entry.Failed, files))
  }

  /** The entry and the files of one directory after a record. */
  function Kept(state: CaptureState, id: ConnectionId, entry: Entry, files: Outputs): CaptureState
    requires id in state.directories
  {
    state.(entries := state.entries[id := entry],
             directories := state.directories[id := state.directories[id].(files := files)])
  }

  /** An entry always comes with its directory, so the last conjunct adds nothing to a reachable state. */
  predicate Owned(state: CaptureState, id: ConnectionId) {
    id in state.entries && id in state.directories
  }

  /** The entry whose recorder may still be used. */
  predicate Recording(state: CaptureState, id: ConnectionId) {
    Owned(state, id) && state.entries[id].Active?
  }

  /** A record for an active recorder. */
  function Continue(config: Config, state: CaptureState, record: Record, outside: Outside): CaptureState
    requires Recording(state, record.connection)
  {
    var id, memory := record.connection, state.entries[record.connection].memory;
    if !outside.recorded then Fail(state, id, outside.files)
    else if !record.kind.Ended? then
      Kept(state, id, Entry.Active(Remember(id, memory, record)), outside.files)
    else if !outside.finished then Fail(state, id, outside.final)
    else
      var outcome := if SuccessfulTerminal(record.kind.reason) then Observed else NotObserved;
      var next := Summarize(config, state, id, outside.final, outcome, outside.summary);
      if outside.summary.Complete(config.summary) then next else Spoil(next)
  }

  function Effect(config: Config, state: CaptureState, step: Step): CaptureState {
    match step
    case StopWon => state.(stopping := true)
    case Received(record, outside) =>
      var id := record.connection;
      if record.kind.Connected? then Admit(config, state, record, outside)
      else if Recording(state, id) then Continue(config, state, record, outside)
      else if id in state.entries then state
      else state.(bad := true)
    case Finalize(id, outside) =>
      if !Owned(state, id) then state
      else
        var files := if Recording(state, id) then outside.final else state.directories[id].files;
        Summarize(config, state, id, files, NotObserved, outside.summary)
    case WriteStatus(status) =>
      state.(status := status.Kept(config.status), bad := state.bad || !status.Complete(config.status))
  }

  function Next(config: Config, state: CaptureState, step: Step): CaptureState {
    if Possible(config, state, step) then Effect(config, state, step) else state
  }

  function Run(config: Config, steps: seq<Step>): CaptureState {
    if steps == [] then START
    else Next(config, Run(config, steps[..|steps| - 1]), steps[|steps| - 1])
  }

  /** One directory: not summarized while owned, summarized once when given up; no entry fails quietly. */
  predicate TidyDirectory(config: Config, directory: Directory, entry: Option<Entry>, bad: bool) {
    && directory.Within(config)
    && match entry
       case Some(entry) => directory.attempts == [] && (entry.Failed? ==> bad)
       case None => |directory.attempts| == 1 && (!bad ==> directory.attempts == [Attempt(Observed, true)])
  }

  function EntryOf(state: CaptureState, id: ConnectionId): Option<Entry> {
    if id in state.entries then Some(state.entries[id]) else None
  }

  predicate TidyAt(config: Config, state: CaptureState, id: ConnectionId)
    requires id in state.directories
  {
    TidyDirectory(config, state.directories[id], EntryOf(state, id), state.bad)
  }

  ghost predicate Tidy(config: Config, state: CaptureState) {
    && state.entries.Keys <= state.directories.Keys
    && |state.directories.Keys| <= state.reserved <= config.run
    && |state.entries.Keys| <= config.active
    && (forall id <- state.directories.Keys :: TidyAt(config, state, id))
    && state.status <= config.status
  }

  /** A spoiled run asks less of each directory. */
  lemma TidyWhenBad(config: Config, directory: Directory, entry: Option<Entry>, bad: bool, worse: bool)
    requires TidyDirectory(config, directory, entry, bad) && (bad ==> worse)
    ensures TidyDirectory(config, directory, entry, worse)
  {
  }

  lemma OneMoreKey(keys: set<ConnectionId>, id: ConnectionId)
    ensures |keys + {id}| <= |keys| + 1
    ensures id !in keys ==> |keys + {id}| == |keys| + 1
  {
    if id in keys { assert keys + {id} == keys; }
  }

  lemma FewerKeys(keys: set<ConnectionId>, fewer: set<ConnectionId>)
    requires fewer <= keys
    ensures |fewer| <= |keys|
  {
    assert |keys| == |fewer| + |keys - fewer| by { assert keys == fewer + (keys - fewer); }
  }

  /** Nothing but the flags, the reservation and the status changes: what was tidy stays so. */
  lemma FlagsTidy(config: Config, state: CaptureState, next: CaptureState)
    requires Tidy(config, state)
    requires next.directories == state.directories && next.entries == state.entries && (state.bad ==> next.bad)
    requires state.reserved <= next.reserved <= config.run && next.status <= config.status
    ensures Tidy(config, next)
  {
    hide TidyDirectory;
    forall id | id in next.directories.Keys ensures TidyAt(config, next, id) {
      assert TidyAt(config, state, id);
      TidyWhenBad(config, state.directories[id], EntryOf(state, id), state.bad, next.bad);
    }
  }

  /** Only one directory and its entry are touched: the rest of the invariant carries over. */
  lemma TouchTidy(config: Config, state: CaptureState, next: CaptureState, id: ConnectionId, directory: Directory)
    requires Tidy(config, state) && id in state.directories
    requires next.directories == state.directories[id := directory]
    requires next.entries.Keys <= state.entries.Keys
    requires forall other :: other != id ==> EntryOf(next, other) == EntryOf(state, other)
    requires next.reserved == state.reserved && next.status == state.status && (state.bad ==> next.bad)
    requires TidyDirectory(config, directory, EntryOf(next, id), next.bad)
    ensures Tidy(config, next)
  {
    hide TidyDirectory, EntryOf;
    FewerKeys(state.entries.Keys, next.entries.Keys);
    assert next.directories.Keys == state.directories.Keys;
    forall other | other in next.directories.Keys ensures TidyAt(config, next, other) {
      if other != id {
        assert TidyAt(config, state, other);
        TidyWhenBad(config, state.directories[other], EntryOf(state, other), state.bad, next.bad);
      }
    }
  }

  /** Every directory stays tidy when one is created. */
  lemma CreateTidyAt(config: Config, state: CaptureState, id: ConnectionId, entry: Entry,
                     files: Outputs, other: ConnectionId)
    requires Tidy(config, state) && Fits(config, files) && other in Create(state, id, entry, files).directories
    ensures TidyAt(config, Create(state, id, entry, files), other)
  {
    var next := Create(state, id, entry, files);
    if other != id {
      hide TidyDirectory;
      assert TidyAt(config, state, other);
      TidyWhenBad(config, state.directories[other], EntryOf(state, other), state.bad, next.bad);
    }
  }

  lemma CreateTidy(config: Config, state: CaptureState, id: ConnectionId, entry: Entry, files: Outputs)
    requires Tidy(config, state) && Fits(config, files) && id !in state.directories
    requires |state.directories.Keys| < state.reserved && |state.entries.Keys| < config.active
    ensures Tidy(config, Create(state, id, entry, files))
  {
    hide TidyAt;
    var next := Create(state, id, entry, files);
    assert next.directories.Keys == state.directories.Keys + {id};
    assert next.entries.Keys == state.entries.Keys + {id};
    OneMoreKey(state.directories.Keys, id);
    OneMoreKey(state.entries.Keys, id);
    forall other | other in next.directories.Keys ensures TidyAt(config, next, other) {
      CreateTidyAt(config, state, id, entry, files, other);
    }
  }

  lemma TidyFacts(config: Config, state: CaptureState)
    requires Tidy(config, state)
    ensures |state.directories.Keys| <= state.reserved <= config.run && state.status <= config.status
    ensures |state.entries.Keys| == |state.entries|
  {
  }

  lemma ReserveTidy(config: Config, state: CaptureState)
    requires Tidy(config, state) && state.reserved < config.run
    ensures var reserved := state.(reserved := state.reserved + 1);
      Tidy(config, reserved) && |reserved.directories.Keys| < reserved.reserved
  {
    FlagsTidy(config, state, state.(reserved := state.reserved + 1));
  }

  lemma SpoilTidy(config: Config, state: CaptureState)
    requires Tidy(config, state)
    ensures Tidy(config, Spoil(state))
    ensures Tidy(config, state.(bad := true)) && Tidy(config, state.(stopping := true))
  {
    FlagsTidy(config, state, Spoil(state));
    FlagsTidy(config, state, state.(bad := true));
    FlagsTidy(config, state, state.(stopping := true));
  }

  lemma AdmitTidy(config: Config, state: CaptureState, record: Record, outside: Outside)
    requires Tidy(config, state) && Fits(config, outside.files)
    ensures Tidy(config, Admit(config, state, record, outside))
  {
    hide Tidy, TidyAt, Create, Remember;
    TidyFacts(config, state);
    SpoilTidy(config, state);
    if !state.stopping && state.reserved != config.run && |state.entries| < config.active {
      var id, reserved := record.connection, state.(reserved := state.reserved + 1);
      ReserveTidy(config, state);
      if !outside.directoryMade || id in state.directories {
        SpoilTidy(config, reserved);
      } else {
        var entry := if outside.recorded then Entry.Active(Remember(id, FRESH, record)) else Entry.Failed;
        CreateTidy(config, reserved, id, entry, outside.files);
        SpoilTidy(config, Create(reserved, id, entry, outside.files));
      }
    }
  }

  lemma KeptTidy(config: Config, state: CaptureState, id: ConnectionId, entry: Entry, files: Outputs)
    requires Tidy(config, state) && Owned(state, id) && Fits(config, files)
    ensures Tidy(config, Kept(state, id, entry, files).(bad := state.bad || entry.Failed?))
  {
    assert TidyAt(config, state, id);
    var next := Kept(state, id, entry, files).(bad := state.bad || entry.Failed?);
    assert next.entries.Keys == state.entries.Keys;
    TouchTidy(config, state, next, id, state.directories[id].(files := files));
  }

  lemma FailTidy(config: Config, state: CaptureState, id: ConnectionId, files: Outputs)
    requires Tidy(config, state) && Owned(state, id) && Fits(config, files)
    ensures Tidy(config, Fail(state, id, files))
  {
    hide Tidy;
    KeptTidy(config, state, id, Entry.Failed, files);
    SpoilTidy(config, Kept(state, id, Entry.Failed, files).(bad := true));
  }

  lemma SummarizeTidy(config: Config, state: CaptureState, id: ConnectionId, files: Outputs,
                      outcome: Outcome, summary: Document)
    requires Tidy(config, state) && Owned(state, id) && Fits(config, files)
    requires outcome.Observed? ==> state.entries[id].Active?
    ensures Tidy(config, Summarize(config, state, id, files, outcome, summary))
  {
    var next := Summarize(config, state, id, files, outcome, summary);
    assert TidyAt(config, state, id);
    assert next.entries.Keys == state.entries.Keys - {id};
    TouchTidy(config, state, next, id, Summarized(config, state.directories[id], files, outcome, summary));
  }

  lemma ContinueTidy(config: Config, state: CaptureState, record: Record, outside: Outside)
    requires Tidy(config, state) && Recording(state, record.connection)
    requires Possible(config, state, Received(record, outside)) && !record.kind.Connected?
    ensures Tidy(config, Continue(config, state, record, outside))
  {
    hide Tidy, Summarize, Fail, Kept, Preserves, Finalizes, Fits, Remember;
    var id := record.connection;
    if !outside.recorded {
      FailTidy(config, state, id, outside.files);
    } else if !record.kind.Ended? {
      var memory := state.entries[id].memory;
      var entry := Entry.Active(Remember(id, memory, record));
      KeptTidy(config, state, id, entry, outside.files);
      KeptBad(state, id, entry, outside.files);
    } else if !outside.finished {
      FailTidy(config, state, id, outside.final);
    } else {
      var outcome := if SuccessfulTerminal(record.kind.reason) then Observed else NotObserved;
      SummarizeTidy(config, state, id, outside.final, outcome, outside.summary);
      SpoilTidy(config, Summarize(config, state, id, outside.final, outcome, outside.summary));
    }
  }

  lemma KeptBad(state: CaptureState, id: ConnectionId, entry: Entry, files: Outputs)
    requires id in state.directories
    ensures Kept(state, id, entry, files).bad == state.bad
  {
  }

  lemma FinalizeTidy(config: Config, state: CaptureState, id: ConnectionId, outside: Outside)
    requires Tidy(config, state) && Owned(state, id)
    requires Possible(config, state, Finalize(id, outside))
    ensures Tidy(config, Effect(config, state, Finalize(id, outside)))
  {
    hide Summarize, Finalizes, Fits;
    assert TidyAt(config, state, id);
    var files := if Recording(state, id) then outside.final else state.directories[id].files;
    SummarizeTidy(config, state, id, files, NotObserved, outside.summary);
  }

  lemma NextTidy(config: Config, state: CaptureState, step: Step)
    requires Tidy(config, state)
    ensures Tidy(config, Next(config, state, step))
  {
    hide Tidy, TidyAt, Admit, Summarize, Continue, Preserves, Finalizes, Opens;
    SpoilTidy(config, state);
    if Possible(config, state, step) {
      match step
      case StopWon =>
      case Received(record, outside) =>
        if record.kind.Connected? {
          AdmitTidy(config, state, record, outside);
        } else if Recording(state, record.connection) {
          ContinueTidy(config, state, record, outside);
        }
      case Finalize(id, outside) => if Owned(state, id) { FinalizeTidy(config, state, id, outside); }
      case WriteStatus(status) => FlagsTidyStatus(config, state, status);
    }
  }

  lemma FlagsTidyStatus(config: Config, state: CaptureState, status: Document)
    requires Tidy(config, state)
    ensures Tidy(config, Effect(config, state, WriteStatus(status)))
  {
    FlagsTidy(config, state, Effect(config, state, WriteStatus(status)));
  }

  lemma {:induction false} RunTidy(config: Config, steps: seq<Step>)
    ensures Tidy(config, Run(config, steps))
    decreases |steps|
  {
    if steps != [] {
      hide Tidy, Next;
      RunTidy(config, steps[..|steps| - 1]);
      NextTidy(config, Run(config, steps[..|steps| - 1]), steps[|steps| - 1]);
    }
  }

  /** Logical bytes of all recording directories. */
  ghost function DirectoryBytes(directories: map<ConnectionId, Directory>): nat
    decreases |directories|
  {
    if directories == map[] then 0
    else
      var id :| id in directories;
      assert |directories - {id}| < |directories| by { Maps.OneLess(directories, id); }
      directories[id].Bytes() + DirectoryBytes(directories - {id})
  }

  /** The sum does not depend on which directory is taken first. */
  lemma {:induction false} BytesOfOne(directories: map<ConnectionId, Directory>, id: ConnectionId)
    requires id in directories
    ensures DirectoryBytes(directories) == directories[id].Bytes() + DirectoryBytes(directories - {id})
    decreases |directories|
  {
    var first :| first in directories
      && DirectoryBytes(directories) == directories[first].Bytes() + DirectoryBytes(directories - {first});
    if first != id {
      Maps.OneLess(directories, first);
      Maps.OneLess(directories, id);
      BytesOfOne(directories - {first}, id);
      BytesOfOne(directories - {id}, first);
      assert directories - {first} - {id} == directories - {id} - {first};
    }
  }

  lemma {:induction false} DirectoriesBounded(directories: map<ConnectionId, Directory>, each: nat)
    requires forall id <- directories :: directories[id].Bytes() <= each
    ensures DirectoryBytes(directories) <= |directories| * each
    decreases |directories|
  {
    hide DirectoryBytes, Directory.Bytes;
    if directories == map[] {
      NoBytes();
    } else {
      var id :| id in directories;
      BytesOfOne(directories, id);
      Maps.OneLess(directories, id);
      DirectoriesBounded(directories - {id}, each);
      assert |directories| * each == (|directories| - 1) * each + each;
    }
  }

  lemma NoBytes()
    ensures DirectoryBytes(map[]) == 0
  {
  }

  /** The promised bound, over every record sequence and failure pattern. */
  lemma {:induction false} OutputWithinBound(config: Config, steps: seq<Step>)
    requires CheckedOutputBound(config.run, config.file, config.summary, config.status).Some?
    ensures var state := Run(config, steps);
      && state.reserved <= config.run && |state.directories| <= state.reserved
      && |state.entries| <= config.active
      && DirectoryBytes(state.directories) + state.status
           <= CheckedOutputBound(config.run, config.file, config.summary, config.status).value
  {
    hide DirectoryBytes, Run;
    var state := Run(config, steps);
    RunTidy(config, steps);
    var each := 3 * config.file + config.summary;
    assert forall id <- state.directories :: id in state.directories.Keys && TidyAt(config, state, id);
    DirectoriesBounded(state.directories, each);
    assert |state.directories.Keys| == |state.directories| && |state.entries.Keys| == |state.entries|;
    MulMonotone(|state.directories|, config.run, each);
  }

  lemma MulMonotone(few: nat, many: nat, each: nat)
    requires few <= many
    ensures few * each <= many * each
  {
    assert many * each == few * each + (many - few) * each;
  }

  /** After the drain has finalized what is left, each created directory had exactly one summary attempt. */
  lemma {:induction false} OneSummaryEach(config: Config, steps: seq<Step>)
    ensures var state := Run(config, steps);
      forall id <- state.directories ::
        |state.directories[id].attempts| == if id in state.entries then 0 else 1
  {
    hide Run;
    RunTidy(config, steps);
    assert forall id <- Run(config, steps).directories :: TidyAt(config, Run(config, steps), id);
  }

  /** A drained run that is not bad recorded every connection it made a directory for to an observed end. */
  lemma GoodMeansComplete(config: Config, steps: seq<Step>)
    requires Run(config, steps).entries == map[] && !Run(config, steps).bad
    ensures var state := Run(config, steps);
      forall id <- state.directories :: state.directories[id].attempts == [Attempt(Observed, true)]
  {
    hide Run;
    RunTidy(config, steps);
    assert forall id <- Run(config, steps).directories :: TidyAt(config, Run(config, steps), id);
  }

  /** Once a stop is won nothing more is reserved or created, and a stop or a failure is never taken back. */
  lemma {:induction false} StopIsFinal(config: Config, steps: seq<Step>, more: seq<Step>)
    ensures Run(config, steps).bad ==> Run(config, steps + more).bad
    ensures Run(config, steps).stopping ==>
      && Run(config, steps + more).stopping
      && Run(config, steps + more).reserved == Run(config, steps).reserved
      && Run(config, steps + more).directories.Keys == Run(config, steps).directories.Keys
    decreases |more|
  {
    if more == [] {
      assert steps + more == steps;
    } else {
      var front := more[..|more| - 1];
      assert (steps + more)[..|steps + more| - 1] == steps + front;
      StopIsFinal(config, steps, front);
      NextStaysStopped(config, Run(config, steps + front), more[|more| - 1]);
    }
  }

  lemma NextStaysStopped(config: Config, state: CaptureState, step: Step)
    ensures state.bad ==> Next(config, state, step).bad
    ensures state.stopping ==>
      && Next(config, state, step).stopping
      && Next(config, state, step).reserved == state.reserved
      && Next(config, state, step).directories.Keys == state.directories.Keys
  {
    hide Possible, Summarized, Remember;
  }
}
