/** The command-line entry point: the hop-limit check, the mapping of the
    parsed options onto configuration overrides, and the exit-code ladder of
    `main` with its guaranteed disconnect, taken over the outcomes of its
    stages. */
module Cli {
  import opened Wrappers
  import opened Text
  import opened Configuration

  const MAX_HOP_LIMIT: int := 7

  // ---------------------------------------------------------------------------
  // Input validation

  /** Python's str() of a value. */
  function ValueText(v: Value): string {
    match v
    case NoneValue => "None"
    case IntValue(i) => IntToDecimal(i)
    case BoolValue(b) => if b then "True" else "False"
    case StrValue(s) => s
    case OtherValue(t) => t
  }

  /** isinstance(v, int): a bool is an int in Python. */
  predicate IsInt(v: Value) {
    v.IntValue? || v.BoolValue?
  }

  function IntOf(v: Value): int
    requires IsInt(v)
  {
    if v.IntValue? then v.i else if v.b then 1 else 0
  }

  /** `validate_inputs`: an absent hop limit passes; otherwise it must be an
      integer from 0 to 7. */
  function ValidateInputs(c: AppConfig): (r: Outcome<string>)
    ensures r.Pass? <==> match c.meshtastic.hopLimit
      case NoneValue => true
      case BoolValue(_) => true
      case IntValue(i) => 0 <= i <= MAX_HOP_LIMIT
      case _ => false
    ensures r.Fail? ==>
      Contains(r.error, "hop_limit") && Contains(r.error, ValueText(c.meshtastic.hopLimit))
  {
    var h := c.meshtastic.hopLimit;
    if h.NoneValue? then Pass
    else if !IsInt(h) || IntOf(h) < 0 || IntOf(h) > MAX_HOP_LIMIT then Fail(HopLimitError(ValueText(h)))
    else Pass
  }

  /** The ValueError text of a rejected hop limit. */
  function HopLimitError(shown: string): (m: string)
    ensures Contains(m, "hop_limit") && Contains(m, shown)
  {
    var name := "hop_limit";
    var head := "Invalid " + name + ": ";
    var tail := ". Must be an integer between 0 and 7.";
    ContainsMiddle("Invalid ", name, ": ");
    ContainsMiddle(head, shown, tail);
    ContainsPrefix(head, shown);
    ContainsPrefix(head + shown, tail);
    ContainsWithin(head + shown + tail, head + shown, head);
    ContainsWithin(head + shown + tail, head, name);
    head + shown + tail
  }

  /** The default hop limit passes. */
  lemma DefaultsPassValidation()
    ensures ValidateInputs(Defaults()).Pass?
  {
  }

  // ---------------------------------------------------------------------------
  // The parsed command line

  /** The options as argparse delivers them: every option left off is None,
      except `--want-ack`, a store_true flag, which is false when left off. */
  datatype CommandLine = CommandLine(
    message: string,
    server: Option<string>, port: Option<int>, username: Option<string>, password: Option<string>,
    gatewayId: Option<string>, toId: Option<string>, channel: Option<string>, region: Option<string>,
    wantAck: bool, hopLimit: Option<int>)

  /** The overrides `merge_with_cli_args` reads from the namespace, as
      written: the flag's false is a set value, so it always overrides. */
  function ParsedArgsAsWritten(cl: CommandLine): CliArgs {
    CliArgs(cl.server, cl.port, cl.username, cl.password, cl.gatewayId, cl.toId, cl.channel, cl.region,
            Some(cl.wantAck), cl.hopLimit)
  }

  /** As written, `want_ack: true` in the configuration file is lost whenever
      `--want-ack` is left off. */
  lemma WantAckFromFileLost(c: AppConfig, cl: CommandLine)
    requires c.meshtastic.wantAck && !cl.wantAck
    ensures !Merged(c, ParsedArgsAsWritten(cl)).meshtastic.wantAck
  {
  }

  /** The overrides with the flag read as intended: left off, it sets nothing. */
  function ParsedArgs(cl: CommandLine): CliArgs {
    CliArgs(cl.server, cl.port, cl.username, cl.password, cl.gatewayId, cl.toId, cl.channel, cl.region,
            if cl.wantAck then Some(true) else None, cl.hopLimit)
  }

  /** The settings `main` works with, corrected: the file's configuration
      with the command line merged over it, the flag read as intended. The
      code as written merges `ParsedArgsAsWritten` instead. */
  function Settings(file: AppConfig, cl: CommandLine): AppConfig {
    Merged(file, ParsedArgs(cl))
  }

  /** Read as intended, acknowledgment is requested when the flag is given or
      the file asks for it; every other setting merges as before. */
  lemma WantAckMerged(file: AppConfig, cl: CommandLine)
    ensures Settings(file, cl).meshtastic.wantAck == (cl.wantAck || file.meshtastic.wantAck)
    ensures Settings(file, cl).mqtt == Merged(file, ParsedArgsAsWritten(cl)).mqtt
    ensures Settings(file, cl).meshtastic.(wantAck := false)
         == Merged(file, ParsedArgsAsWritten(cl)).meshtastic.(wantAck := false)
  {
  }

  /** A hop limit given on the command line decides validation alone. */
  lemma HopLimitFromCommandLine(file: AppConfig, cl: CommandLine)
    requires cl.hopLimit.Some?
    ensures ValidateInputs(Settings(file, cl)).Pass? <==> 0 <= cl.hopLimit.value <= MAX_HOP_LIMIT
  {
  }

  // ---------------------------------------------------------------------------
  // The exit-code ladder of main

  /** The exceptions that decide an exit code. */
  datatype Exc = ValueError | ConnectionError | TimeoutError | KeyboardInterrupt | OtherException

  /** What a stage does: return normally or raise. */
  datatype Step = Ok | Raises(exc: Exc)

  datatype Stage =
    | CreateDefault | Load | Merge | Validate | ValidateInputsStage | Build | Topic
    | Construct | Connect | Publish

  /** One run of `main`: the message, whether the configuration file exists,
      and how each stage goes. */
  datatype Run = Run(
    message: string, configExists: bool,
    createDefault: Step, load: Step, merge: Step, validate: Step, validateInputs: Step,
    build: Step, topic: Step, construct: Step, connect: Step, publish: Step)

  function StepOf(run: Run, stage: Stage): Step {
    match stage
    case CreateDefault => run.createDefault
    case Load => run.load
    case Merge => run.merge
    case Validate => run.validate
    case ValidateInputsStage => run.validateInputs
    case Build => run.build
    case Topic => run.topic
    case Construct => run.construct
    case Connect => run.connect
    case Publish => run.publish
  }

  /** The stages `main` runs when none raises. */
  function Plan(run: Run): seq<Stage> {
    if IsBlank(run.message) then []
    else if !run.configExists then [CreateDefault]
    else [Load, Merge, Validate, ValidateInputsStage, Build, Topic, Construct, Connect, Publish]
  }

  /** The exit code an exception raised by a stage leads to, by the handler
      that catches it: the stage's own `except` clauses, then the outer ones
      (KeyboardInterrupt 130, any other exception 99). */
  function Handled(stage: Stage, e: Exc): int {
    if e == KeyboardInterrupt then 130
    else match stage
      case Load => 1
      case Validate => if e == ValueError then 1 else 99
      case ValidateInputsStage => if e == ValueError then 3 else 99
      case Build => if e == ValueError then 3 else 99
      case Construct => if e == ConnectionError || e == TimeoutError then 2 else 99
      case Connect => if e == ConnectionError || e == TimeoutError then 2 else 99
      case Publish => 2
      case _ => 99
  }

  /** The position of the first stage in `plan[from..]` that raises. */
  function FirstRaise(run: Run, plan: seq<Stage>, from: nat): (r: Option<nat>)
    requires from <= |plan|
    ensures r.Some? ==>
      && from <= r.value < |plan|
      && StepOf(run, plan[r.value]).Raises?
      && forall j :: from <= j < r.value ==> StepOf(run, plan[j]).Ok?
    ensures r.None? ==> forall j :: from <= j < |plan| ==> StepOf(run, plan[j]).Ok?
    decreases |plan| - from
  {
    if from == |plan| then None
    else if StepOf(run, plan[from]).Raises? then Some(from)
    else FirstRaise(run, plan, from + 1)
  }

  /** The exit code of a run. */
  function ExitCode(run: Run): int {
    var plan := Plan(run);
    if IsBlank(run.message) then 3
    else match FirstRaise(run, plan, 0)
      case Some(i) => Handled(plan[i], StepOf(run, plan[i]).exc)
      case None => if run.configExists then 0 else 1
  }

  /** The stages a run attempts: the plan up to and including the first that raises. */
  function Attempted(run: Run): seq<Stage> {
    var plan := Plan(run);
    match FirstRaise(run, plan, 0)
    case Some(i) => plan[..i + 1]
    case None => plan
  }

  /** The client object exists once its constructor has returned. */
  predicate ClientBuilt(run: Run) {
    Construct in Attempted(run) && run.construct.Ok?
  }

  /** The first raise is at `i` when every stage before it returned. */
  lemma FirstRaiseAt(run: Run, i: nat)
    requires i < |Plan(run)| && StepOf(run, Plan(run)[i]).Raises?
    requires forall j :: 0 <= j < i ==> StepOf(run, Plan(run)[j]).Ok?
    ensures FirstRaise(run, Plan(run), 0) == Some(i)
  {
  }

  /** A run whose stage `i` is the first to raise. */
  lemma ExitAt(run: Run, i: nat)
    requires !IsBlank(run.message)
    requires i < |Plan(run)| && StepOf(run, Plan(run)[i]).Raises?
    requires forall j :: 0 <= j < i ==> StepOf(run, Plan(run)[j]).Ok?
    ensures ExitCode(run) == Handled(Plan(run)[i], StepOf(run, Plan(run)[i]).exc)
    ensures Attempted(run) == Plan(run)[..i + 1]
    ensures ClientBuilt(run) <==> run.configExists && i > 6
  {
    FirstRaiseAt(run, i);
    var plan := Plan(run);
    if run.configExists {
      if i >= 6 {
        assert plan[..i + 1][6] == Construct;
      } else {
        assert forall j :: 0 <= j < i + 1 ==> plan[..i + 1][j] == plan[j] != Construct;
      }
    }
  }

  /** The configuration file exists, the message is not blank, and the first
      `k` stages of the plan returned. */
  predicate PassedTo(run: Run, k: nat) {
    && !IsBlank(run.message) && run.configExists && k <= |Plan(run)|
    && forall j :: 0 <= j < k ==> StepOf(run, Plan(run)[j]).Ok?
  }

  /** `main`. Each stage that raises ends the `try` body with the exit code
      its handler chooses (a `sys.exit` inside the body is re-raised past the
      outer handlers), and the `finally` disconnects whenever the client
      object exists, once. */
  method MainFlow(run: Run) returns (exitCode: int, attempted: seq<Stage>, disconnects: nat)
    ensures exitCode == ExitCode(run)
    ensures attempted == Attempted(run)
    ensures disconnects == (if ClientBuilt(run) then 1 else 0)
  {
    exitCode, attempted, disconnects := 0, [], 0;
    var client := false;
    label body: {
      if IsBlank(run.message) {
        exitCode := 3;
        break body;
      }
      if !run.configExists {
        attempted := [CreateDefault];
        if run.createDefault.Raises? {
          exitCode := if run.createDefault.exc == KeyboardInterrupt then 130 else 99;
          ExitAt(run, 0);
          break body;
        }
        exitCode := 1;
        assert FirstRaise(run, Plan(run), 1) == None;
        break body;
      }
      var stop;
      stop, exitCode, attempted := ConfigStages(run);
      if stop {
        break body;
      }
      stop, exitCode, attempted := MessageStages(run, attempted);
      if stop {
        break body;
      }
      exitCode, attempted, client := BrokerStages(run, attempted);
    }
    // finally: the disconnect swallows its own exceptions
    if client {
      disconnects := disconnects + 1;
    }
  }

  /** The configuration stages of `main`: load, merge, validate, validate inputs. */
  method ConfigStages(run: Run) returns (stop: bool, exitCode: int, attempted: seq<Stage>)
    requires PassedTo(run, 0)
    ensures stop ==> exitCode == ExitCode(run) && attempted == Attempted(run) && !ClientBuilt(run)
    ensures !stop ==> PassedTo(run, 4) && attempted == Plan(run)[..4]
  {
    ghost var plan := Plan(run);
    stop, exitCode, attempted := true, 0, [Load];
    if run.load.Raises? {
      // FileNotFoundError and every other Exception exit 1
      exitCode := if run.load.exc == KeyboardInterrupt then 130 else 1;
      ExitAt(run, 0);
      return;
    }
    attempted := attempted + [Merge];
    if run.merge.Raises? {
      exitCode := if run.merge.exc == KeyboardInterrupt then 130 else 99;
      ExitAt(run, 1);
      return;
    }
    attempted := attempted + [Validate];
    if run.validate.Raises? {
      exitCode := match run.validate.exc
        case ValueError => 1
        case KeyboardInterrupt => 130
        case _ => 99;
      ExitAt(run, 2);
      assert attempted == plan[..3];
      return;
    }
    attempted := attempted + [ValidateInputsStage];
    if run.validateInputs.Raises? {
      exitCode := match run.validateInputs.exc
        case ValueError => 3
        case KeyboardInterrupt => 130
        case _ => 99;
      ExitAt(run, 3);
      assert attempted == plan[..4];
      return;
    }
    stop := false;
    assert attempted == plan[..4];
  }

  /** The message stages of `main`: build the message and the topic. */
  method MessageStages(run: Run, prior: seq<Stage>) returns (stop: bool, exitCode: int, attempted: seq<Stage>)
    requires PassedTo(run, 4) && prior == Plan(run)[..4]
    ensures stop ==> exitCode == ExitCode(run) && attempted == Attempted(run) && !ClientBuilt(run)
    ensures !stop ==> PassedTo(run, 6) && attempted == Plan(run)[..6]
  {
    ghost var plan := Plan(run);
    stop, exitCode, attempted := true, 0, prior + [Build];
    if run.build.Raises? {
      exitCode := match run.build.exc
        case ValueError => 3
        case KeyboardInterrupt => 130
        case _ => 99;
      ExitAt(run, 4);
      assert attempted == plan[..5];
      return;
    }
    attempted := attempted + [Topic];
    if run.topic.Raises? {
      exitCode := if run.topic.exc == KeyboardInterrupt then 130 else 99;
      ExitAt(run, 5);
      assert attempted == plan[..6];
      return;
    }
    stop := false;
    assert attempted == plan[..6];
  }

  /** The broker stages of `main`: construct the client, connect, publish.
      `client` says whether the client object was assigned. */
  method BrokerStages(run: Run, prior: seq<Stage>) returns (exitCode: int, attempted: seq<Stage>, client: bool)
    requires PassedTo(run, 6) && prior == Plan(run)[..6]
    ensures exitCode == ExitCode(run) && attempted == Attempted(run) && client == ClientBuilt(run)
  {
    ghost var plan := Plan(run);
    exitCode, attempted, client := 0, prior + [Construct], false;
    if run.construct.Raises? {
      exitCode := match run.construct.exc
        case ConnectionError => 2
        case TimeoutError => 2
        case KeyboardInterrupt => 130
        case _ => 99;
      ExitAt(run, 6);
      assert attempted == plan[..7];
      return;
    }
    client := true;
    attempted := attempted + [Connect];
    if run.connect.Raises? {
      exitCode := match run.connect.exc
        case ConnectionError => 2
        case TimeoutError => 2
        case KeyboardInterrupt => 130
        case _ => 99;
      ExitAt(run, 7);
      assert attempted == plan[..8];
      return;
    }
    attempted := attempted + [Publish];
    if run.publish.Raises? {
      exitCode := if run.publish.exc == KeyboardInterrupt then 130 else 2;
      ExitAt(run, 8);
      assert attempted == plan[..9];
      return;
    }
    assert attempted == plan;
    assert FirstRaise(run, plan, 0) == None;
    assert plan[6] == Construct;
  }

  // ---------------------------------------------------------------------------
  // Properties of the ladder

  /** A run succeeds exactly when the message is not blank, the file exists
      and no stage raises; it then connects, publishes and disconnects once each. */
  lemma SuccessPath(run: Run)
    ensures ExitCode(run) == 0 <==>
      && !IsBlank(run.message) && run.configExists
      && forall s :: s in Plan(run) ==> StepOf(run, s).Ok?
    ensures ExitCode(run) == 0 ==>
      && Attempted(run) == [Load, Merge, Validate, ValidateInputsStage, Build, Topic, Construct, Connect, Publish]
      && ClientBuilt(run)
  {
    var plan := Plan(run);
    if !IsBlank(run.message) && run.configExists {
      match FirstRaise(run, plan, 0)
      case Some(i) =>
        assert plan[i] in plan;
        assert Handled(plan[i], StepOf(run, plan[i]).exc) != 0;
      case None =>
        forall s | s in plan ensures StepOf(run, s).Ok? {
          var j :| 0 <= j < |plan| && plan[j] == s;
        }
        assert plan[6] == Construct;
    }
  }

  /** A blank message exits 3 before anything else is attempted. */
  lemma BlankMessage(run: Run)
    requires IsBlank(run.message)
    ensures ExitCode(run) == 3 && Attempted(run) == [] && !ClientBuilt(run)
  {
  }

  /** A missing configuration file exits 1 once the default is created. */
  lemma MissingConfigFile(run: Run)
    requires !IsBlank(run.message) && !run.configExists && run.createDefault.Ok?
    ensures ExitCode(run) == 1 && Attempted(run) == [CreateDefault] && !ClientBuilt(run)
  {
    assert FirstRaise(run, Plan(run), 1) == None;
  }

  /** Exit codes 1 and 3 are decided before the client object exists. */
  lemma EarlyExitsHaveNoClient(run: Run)
    requires ExitCode(run) == 1 || ExitCode(run) == 3
    ensures !ClientBuilt(run)
  {
    var plan := Plan(run);
    if !IsBlank(run.message) && run.configExists {
      match FirstRaise(run, plan, 0)
      case Some(i) =>
        assert i < 6;
        assert forall j :: 0 <= j <= i ==> plan[..i + 1][j] == plan[j] && plan[j] != Construct;
      case None =>
    }
  }

  /** A failed connect or publish is followed by the disconnect. */
  lemma FailureAfterConstructDisconnects(run: Run)
    requires !IsBlank(run.message) && run.configExists
    requires forall s :: s in [Load, Merge, Validate, ValidateInputsStage, Build, Topic, Construct] ==> StepOf(run, s).Ok?
    requires run.connect.Raises? || run.publish.Raises?
    ensures ClientBuilt(run)
    ensures run.connect.Raises? ==> ExitCode(run) == Handled(Connect, run.connect.exc)
    ensures run.connect.Ok? ==> ExitCode(run) == Handled(Publish, run.publish.exc)
  {
    var plan := Plan(run);
    assert forall j :: 0 <= j < 7 ==> plan[j] in [Load, Merge, Validate, ValidateInputsStage, Build, Topic, Construct];
    if run.connect.Raises? {
      ExitAt(run, 7);
      assert plan[..8][6] == Construct;
    } else {
      ExitAt(run, 8);
      assert plan[..9][6] == Construct;
    }
  }

  /** Every run exits with one of the documented codes. */
  lemma ExitCodes(run: Run)
    ensures ExitCode(run) in {0, 1, 2, 3, 99, 130}
  {
  }

  /** An interrupt exits 130 wherever it is raised. */
  lemma InterruptExits130(run: Run, i: nat)
    requires !IsBlank(run.message) && i < |Plan(run)|
    requires StepOf(run, Plan(run)[i]) == Raises(KeyboardInterrupt)
    requires forall j :: 0 <= j < i ==> StepOf(run, Plan(run)[j]).Ok?
    ensures ExitCode(run) == 130
  {
    FirstRaiseAt(run, i);
  }
}
