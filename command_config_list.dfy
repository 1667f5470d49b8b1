/**
 * The `config list` command of command/config_list.go: parse flags, refuse
 * positional arguments, list the contexts, and pick an exit code and the
 * messages sent to the UI.
 */
module ConfigList {
  import opened Wrappers
  import opened Api

  /** The output format that renders a table. */
  const TableFormat: string := "table"

  /** What parsing the command line gave: an error, or the flag values and the arguments left. */
  datatype FlagParse =
    | FlagsFailed(message: string)
    | FlagsParsed(detailed: bool, rest: seq<string>)

  /** The messages the command writes, by meaning rather than by wording. */
  datatype Message =
    | FlagError(text: string)                  // the flag parser's error text
    | TooManyArguments(got: nat)               // "Too many arguments (expected 0, got %d)"
    | ErrorListingContexts(cause: LoadError)   // "Error listing contexts: %s"
    | NoContextsFound                          // "No contexts found"
    | CurrentContextIs(name: string)           // "\nCurrent context: %s\n"

  /** One thing sent to the UI, in order. */
  datatype UiEvent =
    | UiError(message: Message)                // c.UI.Error
    | UiOutput(message: Message)               // c.UI.Output
    | UiData(data: map<string, Display>)       // OutputData(c.UI, data)

  /** An exit code together with what was sent to the UI on the way. */
  datatype Step = Step(code: int, events: seq<UiEvent>)

  /**
   * The part of Run after the arguments are accepted, for any triple that
   * ListContexts could hand back: an error gives 2; a nil map gives 2, as an
   * empty data object outside table format and as "No contexts found" in it;
   * otherwise the current-context line comes before the data and OutputData's
   * result is the exit code.
   */
  function AfterList(listed: Listed, format: string, outputData: map<string, Display> -> int): (s: Step)
    ensures listed.err.Some? ==> s == Step(2, [UiError(ErrorListingContexts(listed.err.value))])
    ensures listed.contexts.None? ==> s.code == 2
    ensures listed.err.None? && listed.contexts.None? && format != TableFormat ==> s.events == [UiData(map[])]
    ensures listed.err.None? && listed.contexts.None? && format == TableFormat ==> s.events == [UiError(NoContextsFound)]
    ensures listed.err.None? && listed.contexts.Some? ==>
      s == Step(outputData(listed.contexts.value), [UiOutput(CurrentContextIs(listed.current)), UiData(listed.contexts.value)])
    ensures UiError(NoContextsFound) in s.events <==> listed.err.None? && listed.contexts.None? && format == TableFormat
  {
    if listed.err.Some? then
      Step(2, [UiError(ErrorListingContexts(listed.err.value))])
    else if format != TableFormat && listed.contexts.None? then
      // OutputData's own result is discarded here
      Step(2, [UiData(map[])])
    else if listed.contexts.None? then
      Step(2, [UiError(NoContextsFound)])
    else
      Step(outputData(listed.contexts.value), [UiOutput(CurrentContextIs(listed.current)), UiData(listed.contexts.value)])
  }

  class ConfigListCommand {
    /** The target of the `-detailed` flag. */
    var flagDetailed: bool
    /** Everything sent to the UI so far, in order. */
    var ui: seq<UiEvent>

    constructor ()
      ensures !flagDetailed && ui == []
    {
      flagDetailed := false;
      ui := [];
    }

    /**
     * Run: a flag error or a leftover argument is a usage error (1) and the
     * contexts are never listed; after that the exit code and messages are
     * those of AfterList on what ListContexts returns. Since a successful
     * listing is never nil, success always reaches OutputData.
     */
    method Run(host: Host, flags: FlagParse, format: string, outputData: map<string, Display> -> int) returns (code: int)
      modifies this
      ensures flags.FlagsFailed? ==>
        code == 1 && ui == old(ui) + [UiError(FlagError(flags.message))] && flagDetailed == old(flagDetailed)
      ensures flags.FlagsParsed? ==> flagDetailed == flags.detailed
      ensures flags.FlagsParsed? && |flags.rest| > 0 ==>
        code == 1 && ui == old(ui) + [UiError(TooManyArguments(|flags.rest|))]
      ensures flags.FlagsParsed? && flags.rest == [] ==>
        var s := AfterList(ListedFrom(Load(host, "")), format, outputData);
        code == s.code && ui == old(ui) + s.events
      ensures flags.FlagsParsed? && flags.rest == [] && Load(host, "").Err? ==>
        code == 2 && ui == old(ui) + [UiError(ErrorListingContexts(Load(host, "").error))]
      ensures flags.FlagsParsed? && flags.rest == [] && Load(host, "").Ok? ==>
        var c := Load(host, "").value;
        && code == outputData(DisplayOf(c.contexts))
        && ui == old(ui) + [UiOutput(CurrentContextIs(c.currentContext)), UiData(DisplayOf(c.contexts))]
    {
      if flags.FlagsFailed? {
        ui := ui + [UiError(FlagError(flags.message))];
        return 1;
      }
      flagDetailed := flags.detailed;
      var args := flags.rest;
      if |args| > 0 {
        ui := ui + [UiError(TooManyArguments(|args|))];
        return 1;
      }
      var contexts, defaultContext, err := ListContexts(host);
      var s := AfterList(Listed(contexts, defaultContext, err), format, outputData);
      ui := ui + s.events;
      code := s.code;
    }
  }

  /**
   * After a successful load the nil-map branches cannot be reached: the
   * current-context line and the data always follow, and OutputData decides
   * the exit code.
   */
  lemma SuccessfulListingReachesOutputData(conf: DefaultBaoConfig, format: string, outputData: map<string, Display> -> int)
    ensures AfterList(ListedFrom(Ok(conf)), format, outputData) ==
      Step(outputData(DisplayOf(conf.contexts)), [UiOutput(CurrentContextIs(conf.currentContext)), UiData(DisplayOf(conf.contexts))])
  {
  }

  /** "No contexts found" is never printed for a listing that ListContexts produced. */
  lemma NoContextsFoundUnreachable(r: Result<DefaultBaoConfig, LoadError>, format: string, outputData: map<string, Display> -> int)
    ensures UiError(NoContextsFound) !in AfterList(ListedFrom(r), format, outputData).events
  {
  }

  /** A configuration without contexts sends an empty map to OutputData, in table format too. */
  lemma EmptyConfigurationReachesOutputData(format: string, outputData: map<string, Display> -> int)
    ensures AfterList(ListedFrom(Ok(ZeroConfig)), format, outputData) ==
      Step(outputData(map[]), [UiOutput(CurrentContextIs("")), UiData(map[])])
  {
  }
}
