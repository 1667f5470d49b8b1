/**
 * The CLI configuration pipeline of api/config.go: choose the file path, expand
 * it, read it tolerantly, parse it, check its top-level keys, decode it, and
 * derive the current context and the context listing from the result.
 */
module Api {
  import opened Wrappers
  import opened Hcl

  /** Where the configuration lives when nothing else says so. */
  const DefaultConfigPath: string := "~/.bao"
  /** The environment variable that overrides the path. */
  const ConfigPathEnv: string := "BAO_CONFIG_PATH"
  /** The only top-level keys a configuration file may hold. */
  const ValidKeys: seq<string> := ["token_helper", "current_context", "contexts"]

  datatype Context = Context(server: string, namespace: string)

  /** Go's zero `Context{}`. */
  const ZeroContext: Context := Context("", "")

  datatype DefaultBaoConfig = DefaultBaoConfig(
    tokenHelper: string,
    currentContext: string,
    contexts: map<string, Context>)

  /** Go's zero `DefaultBaoConfig{}`; a nil contexts map reads as an empty one. */
  const ZeroConfig: DefaultBaoConfig := DefaultBaoConfig("", "", map[])

  // ---------------------------------------------------------------------------
  // The host: environment, home expansion, file system and HCL parser
  // ---------------------------------------------------------------------------

  /** An error that comes from the operating system, opaque here. */
  datatype OsError = OsError(message: string)

  /** What `homedir.Expand` returns: a path and possibly an error. */
  datatype Expansion = Expansion(path: string, err: Option<OsError>)

  /** What `os.ReadFile` gives, with the `os.IsNotExist` classification applied. */
  datatype ReadOutcome =
    | Contents(text: string)
    | NotExist(err: OsError)
    | ReadError(err: OsError)

  /** Everything `LoadConfig` consults outside itself. */
  datatype Host = Host(
    baoConfigPath: string,               // what ReadBaoVariable(ConfigPathEnv) yields; "" when unset
    expand: string -> Expansion,         // homedir.Expand
    readFile: string -> ReadOutcome,     // os.ReadFile
    hclParse: string -> ParseOutcome)    // hcl.Parse

  // ---------------------------------------------------------------------------
  // Errors
  // ---------------------------------------------------------------------------

  /** Why decoding the AST into the typed structure failed, by field. */
  datatype DecodeFailure =
    | ExpectedString(field: string)
    | ExpectedMap(field: string)
    | ExpectedObject(field: string)

  datatype ParseError =
    | HclError(diagnostic: string)       // hcl.Parse failed; returned as is
    | NoRootObject                       // "does not contain a root object"
    | UnknownKeys(keys: seq<string>)     // CheckHCLKeys rejected these top-level keys
    | DecodeError(failure: DecodeFailure)

  datatype LoadError =
    | ExpandFailed(expandedPath: string, expandError: OsError)   // "error expanding config path %q: %w"
    | ReadFailed(readError: OsError)                 // the read error, unwrapped
    | ParseFailed(filePath: string, parseError: ParseError) // "error parsing config file at %q: %w; ..."

  // ---------------------------------------------------------------------------
  // Path choice and loading
  // ---------------------------------------------------------------------------

  /**
   * The path handed to home expansion, by precedence: a non-empty
   * BAO_CONFIG_PATH, then a non-empty argument, then the default. It is never
   * empty.
   */
  function SelectedPath(arg: string, env: string): (p: string)
    ensures p != ""
    ensures p == env || p == arg || p == DefaultConfigPath
  {
    if env != "" then env
    else if arg != "" then arg
    else DefaultConfigPath
  }

  /** Wraps a parse failure with the path that was read. */
  function WrapParse(path: string, r: Result<DefaultBaoConfig, ParseError>): (w: Result<DefaultBaoConfig, LoadError>)
  {
    match r
    case Ok(c) => Ok(c)
    case Err(e) => Err(ParseFailed(path, e))
  }

  /** Expansion, tolerant read and parse of the configuration at path `p`. */
  function LoadAt(host: Host, p: string): (r: Result<DefaultBaoConfig, LoadError>)
  {
    var x := host.expand(p);
    if x.err.Some? then Err(ExpandFailed(x.path, x.err.value))
    else
      match host.readFile(x.path)
      case ReadError(e) => Err(ReadFailed(e))
      case NotExist(_) => WrapParse(x.path, ParseConfig(host.hclParse, ""))
      case Contents(text) => WrapParse(x.path, ParseConfig(host.hclParse, text))
  }

  /** What `LoadConfig(arg)` returns. */
  function Load(host: Host, arg: string): (r: Result<DefaultBaoConfig, LoadError>)
  {
    LoadAt(host, SelectedPath(arg, host.baoConfigPath))
  }

  /**
   * LoadConfig as the source writes it: `path` starts as the argument, the
   * default replaces it when it is empty, a non-empty BAO_CONFIG_PATH replaces
   * it in any case, and expansion replaces it once more.
   */
  method LoadConfig(host: Host, path: string) returns (r: Result<DefaultBaoConfig, LoadError>)
    ensures r == Load(host, path)
  {
    var p := path;
    if p == "" {
      p := DefaultConfigPath;
    }
    var v := host.baoConfigPath;
    if v != "" {
      p := v;
    }
    var expanded := host.expand(p);
    p := expanded.path;
    if expanded.err.Some? {
      return Err(ExpandFailed(p, expanded.err.value));
    }
    var contents := "";
    match host.readFile(p) {
      case ReadError(e) =>
        return Err(ReadFailed(e));
      case NotExist(_) =>
      case Contents(text) =>
        contents := text;
    }
    var conf := ParseConfig(host.hclParse, contents);
    if conf.Err? {
      return Err(ParseFailed(p, conf.error));
    }
    return Ok(conf.value);
  }

  /** BaoConfig: LoadConfig on the empty argument, passed through. */
  method BaoConfig(host: Host) returns (r: Result<DefaultBaoConfig, LoadError>)
    ensures r == Load(host, "")
  {
    var config := LoadConfig(host, "");
    if config.Err? {
      return Err(config.error);
    }
    return Ok(config.value);
  }

  // ---------------------------------------------------------------------------
  // Parsing: root shape, key allow-list, decode
  // ---------------------------------------------------------------------------

  /**
   * The top-level keys outside `valid`, in document order; empty exactly when
   * every key is allowed.
   */
  function CheckHclKeys(items: seq<Item>, valid: seq<string>): (bad: seq<string>)
    ensures bad == [] <==> forall i | 0 <= i < |items| :: items[i].key in valid
    ensures forall k | k in bad :: k !in valid && k in KeySet(items)
    ensures forall i | 0 <= i < |items| && items[i].key !in valid :: items[i].key in bad
  {
    if items == [] then []
    else
      var rest := CheckHclKeys(items[1..], valid);
      assert forall i | 1 <= i < |items| :: items[i] == items[1..][i - 1];
      (if items[0].key in valid then [] else [items[0].key]) + rest
  }

  /**
   * ParseConfig: parse, insist on an object list at the root, reject unknown
   * top-level keys, and only then decode.
   */
  function ParseConfig(hclParse: string -> ParseOutcome, contents: string): (r: Result<DefaultBaoConfig, ParseError>)
    ensures hclParse(contents).SyntaxError? ==> r == Err(HclError(hclParse(contents).diagnostic))
    ensures hclParse(contents) == Parsed(OtherNode) ==> r == Err(NoRootObject)
    ensures hclParse(contents).Parsed? && hclParse(contents).root.ObjectList? ==>
      var items := hclParse(contents).root.items;
      && (CheckHclKeys(items, ValidKeys) != [] ==> r == Err(UnknownKeys(CheckHclKeys(items, ValidKeys))))
      && (CheckHclKeys(items, ValidKeys) == [] && DecodeConfig(items).Ok? ==> r == Ok(DecodeConfig(items).value))
      && (CheckHclKeys(items, ValidKeys) == [] && DecodeConfig(items).Err? ==> r == Err(DecodeError(DecodeConfig(items).error)))
    ensures r.Ok? ==>
      && hclParse(contents).Parsed? && hclParse(contents).root.ObjectList?
      && forall i | 0 <= i < |hclParse(contents).root.items| :: hclParse(contents).root.items[i].key in ValidKeys
  {
    match hclParse(contents)
    case SyntaxError(d) => Err(HclError(d))
    case Parsed(root) =>
      match root
      case OtherNode => Err(NoRootObject)
      case ObjectList(items) =>
        var bad := CheckHclKeys(items, ValidKeys);
        if bad != [] then Err(UnknownKeys(bad))
        else
          match DecodeConfig(items)
          case Ok(c) => Ok(c)
          case Err(f) => Err(DecodeError(f))
  }

  /**
   * A string field: every occurrence must be a literal, and the last one
   * wins; with no occurrence the field keeps `current`.
   */
  function DecodeString(vs: seq<Value>, current: string, field: string): (r: Result<string, DecodeFailure>)
    ensures r.Ok? <==> AllLiterals(vs)
    ensures r.Ok? ==> r.value == LastText(vs, current)
    ensures r.Err? ==> r.error == ExpectedString(field)
  {
    if vs == [] then Ok(current)
    else if !vs[0].Literal? then Err(ExpectedString(field))
    else
      var r := DecodeString(vs[1..], vs[0].text, field);
      assert forall i | 1 <= i < |vs| :: vs[i] == vs[1..][i - 1];
      r
  }

  /** Every value is a literal. */
  predicate AllLiterals(vs: seq<Value>)
  {
    forall i | 0 <= i < |vs| :: vs[i].Literal?
  }

  /** The text of the last value, or `default` when there is none. */
  function LastText(vs: seq<Value>, default: string): string
    requires AllLiterals(vs)
  {
    if vs == [] then default else vs[|vs| - 1].text
  }

  /**
   * One context block, decoded on top of the value the name already had: it
   * succeeds exactly when every `server` and `namespace` is a literal, and
   * each field is its last literal or, without one, the earlier value.
   */
  function DecodeContext(fields: seq<Item>, base: Context): (r: Result<Context, DecodeFailure>)
    ensures r.Ok? <==> AllLiterals(Matches(fields, "server")) && AllLiterals(Matches(fields, "namespace"))
    ensures r.Ok? ==> r.value == Context(
      LastText(Matches(fields, "server"), base.server),
      LastText(Matches(fields, "namespace"), base.namespace))
    ensures Matches(fields, "server") == [] && Matches(fields, "namespace") == [] ==> r == Ok(base)
  {
    var server :- DecodeString(Matches(fields, "server"), base.server, "server");
    var namespace :- DecodeString(Matches(fields, "namespace"), base.namespace, "namespace");
    Ok(Context(server, namespace))
  }

  /** The named blocks of one `contexts { ... }` object, merged into `acc`. */
  function DecodeEntries(entries: seq<Item>, acc: map<string, Context>): (r: Result<map<string, Context>, DecodeFailure>)
    ensures r.Ok? ==> r.value.Keys == acc.Keys + KeySet(entries)
    ensures r.Ok? ==> forall i | 0 <= i < |entries| :: entries[i].value.Object?
    ensures r.Ok? ==> forall k | k in acc && k !in KeySet(entries) :: r.value[k] == acc[k]
    decreases |entries|
  {
    if entries == [] then Ok(acc)
    else
      var e := entries[0];
      assert forall i | 1 <= i < |entries| :: entries[i] == entries[1..][i - 1];
      assert KeySet(entries) == {e.key} + KeySet(entries[1..]);
      match e.value
      case Object(fields) =>
        var base := if e.key in acc then acc[e.key] else ZeroContext;
        var ctx :- DecodeContext(fields, base);
        DecodeEntries(entries[1..], acc[e.key := ctx])
      case _ => Err(ExpectedObject(e.key))
  }

  /** The names of the blocks of every object among `vs`. */
  function ObjectKeys(vs: seq<Value>): (names: set<string>)
  {
    if vs == [] then {}
    else (if vs[0].Object? then KeySet(vs[0].items) else {}) + ObjectKeys(vs[1..])
  }

  /**
   * Every `contexts` occurrence, each an object, merged in document order: the
   * result holds the earlier names and the names of every occurrence, and a
   * name no occurrence mentions keeps its context.
   */
  function DecodeContextMaps(vs: seq<Value>, acc: map<string, Context>): (r: Result<map<string, Context>, DecodeFailure>)
    ensures vs == [] ==> r == Ok(acc)
    ensures r.Ok? ==> r.value.Keys == acc.Keys + ObjectKeys(vs)
    ensures r.Ok? ==> forall k | k in acc && k !in ObjectKeys(vs) :: r.value[k] == acc[k]
    ensures r.Ok? ==> forall i | 0 <= i < |vs| :: vs[i].Object?
    decreases |vs|
  {
    if vs == [] then Ok(acc)
    else
      assert forall i | 1 <= i < |vs| :: vs[i] == vs[1..][i - 1];
      match vs[0]
      case Object(entries) =>
        var merged :- DecodeEntries(entries, acc);
        DecodeContextMaps(vs[1..], merged)
      case _ => Err(ExpectedMap("contexts"))
  }

  /**
   * hcl.DecodeObject into a zero DefaultBaoConfig, field by field in
   * declaration order; a key the document leaves out keeps its zero value.
   */
  function DecodeConfig(items: seq<Item>): (r: Result<DefaultBaoConfig, DecodeFailure>)
    ensures r.Ok? <==>
      && AllLiterals(Matches(items, "token_helper"))
      && AllLiterals(Matches(items, "current_context"))
      && DecodeContextMaps(Matches(items, "contexts"), map[]).Ok?
    ensures r.Ok? ==> r.value == DefaultBaoConfig(
      LastText(Matches(items, "token_helper"), ""),
      LastText(Matches(items, "current_context"), ""),
      DecodeContextMaps(Matches(items, "contexts"), map[]).value)
    ensures items == [] ==> r == Ok(ZeroConfig)
    ensures r.Ok? && Matches(items, "token_helper") == [] ==> r.value.tokenHelper == ""
    ensures r.Ok? && Matches(items, "current_context") == [] ==> r.value.currentContext == ""
    ensures r.Ok? && Matches(items, "contexts") == [] ==> r.value.contexts == map[]
  {
    var tokenHelper :- DecodeString(Matches(items, "token_helper"), "", "token_helper");
    var currentContext :- DecodeString(Matches(items, "current_context"), "", "current_context");
    var contexts :- DecodeContextMaps(Matches(items, "contexts"), map[]);
    Ok(DefaultBaoConfig(tokenHelper, currentContext, contexts))
  }

  // ---------------------------------------------------------------------------
  // Derived views
  // ---------------------------------------------------------------------------

  /**
   * CurrentContext: the context the configuration names as current, the zero
   * context when that name is absent, and the zero context with the error when
   * loading fails.
   */
  method CurrentContext(host: Host) returns (ctx: Context, err: Option<LoadError>)
    ensures Load(host, "").Err? ==> ctx == ZeroContext && err == Some(Load(host, "").error)
    ensures Load(host, "").Ok? ==>
      var c := Load(host, "").value;
      && err == None
      && (c.currentContext in c.contexts ==> ctx == c.contexts[c.currentContext])
      && (c.currentContext !in c.contexts ==> ctx == ZeroContext)
  {
    var config := LoadConfig(host, "");
    if config.Err? {
      return ZeroContext, Some(config.error);
    }
    var c := config.value;
    ctx := if c.currentContext in c.contexts then c.contexts[c.currentContext] else ZeroContext;
    err := None;
  }

  /** A printable record, `map[string]interface{}` with string values. */
  type Display = map<string, string>

  /** The record ListContexts builds for one context: exactly namespace and server. */
  function DisplayRecord(c: Context): (d: Display)
    ensures d.Keys == {"namespace", "server"}
    ensures d["namespace"] == c.namespace && d["server"] == c.server
  {
    map["namespace" := c.namespace, "server" := c.server]
  }

  /** Reads a context back out of its display record. */
  function ContextOfRecord(d: Display): (c: Context)
  {
    Context(if "server" in d then d["server"] else "", if "namespace" in d then d["namespace"] else "")
  }

  /** The display map: one record per context, under the same name. */
  function DisplayOf(contexts: map<string, Context>): (m: map<string, Display>)
    ensures m.Keys == contexts.Keys
    ensures forall k | k in m :: m[k] == DisplayRecord(contexts[k])
  {
    map k | k in contexts :: DisplayRecord(contexts[k])
  }

  /** The three results of `ListContexts`; `None` for a nil map. */
  datatype Listed = Listed(contexts: Option<map<string, Display>>, current: string, err: Option<LoadError>)

  /**
   * What ListContexts returns after loading gave `r`: `(nil, "", err)` on a
   * failure, otherwise a non-nil display map over the same names and the
   * current-context name unchanged.
   */
  function ListedFrom(r: Result<DefaultBaoConfig, LoadError>): (l: Listed)
    ensures r.Err? ==> l == Listed(None, "", Some(r.error))
    ensures r.Ok? ==> l.err == None && l.contexts.Some? && l.current == r.value.currentContext
    ensures r.Ok? ==> l.contexts.value.Keys == r.value.contexts.Keys
    ensures l.err.None? ==> l.contexts.Some?
  {
    match r
    case Err(e) => Listed(None, "", Some(e))
    case Ok(c) => Listed(Some(DisplayOf(c.contexts)), c.currentContext, None)
  }

  /**
   * ListContexts: load, then fill a freshly made map with one display record
   * per context.
   */
  method ListContexts(host: Host) returns (contexts: Option<map<string, Display>>, current: string, err: Option<LoadError>)
    ensures Listed(contexts, current, err) == ListedFrom(Load(host, ""))
  {
    var config := LoadConfig(host, "");
    if config.Err? {
      return None, "", Some(config.error);
    }
    var c := config.value;
    var made: map<string, Display> := map[];
    var pending := c.contexts.Keys;
    while pending != {}
      invariant pending <= c.contexts.Keys
      invariant made.Keys == c.contexts.Keys - pending
      invariant forall k | k in made :: made[k] == DisplayRecord(c.contexts[k])
      decreases pending
    {
      var k :| k in pending;
      made := made[k := DisplayRecord(c.contexts[k])];
      pending := pending - {k};
    }
    assert made == DisplayOf(c.contexts);
    return Some(made), c.currentContext, None;
  }

  // ---------------------------------------------------------------------------
  // Properties
  // ---------------------------------------------------------------------------

  /** With neither an argument nor BAO_CONFIG_PATH, the default path is used. */
  lemma DefaultPathWhenNothingGiven(host: Host)
    requires host.baoConfigPath == ""
    ensures Load(host, "") == LoadAt(host, DefaultConfigPath)
  {
  }

  /** A non-empty BAO_CONFIG_PATH wins even over an explicit argument. */
  lemma EnvironmentOverridesArgument(host: Host, arg: string)
    requires host.baoConfigPath != ""
    ensures Load(host, arg) == LoadAt(host, host.baoConfigPath)
  {
  }

  /** Without BAO_CONFIG_PATH, a non-empty argument is the path. */
  lemma ArgumentWithoutEnvironment(host: Host, arg: string)
    requires host.baoConfigPath == "" && arg != ""
    ensures Load(host, arg) == LoadAt(host, arg)
  {
  }

  /** A failed expansion is reported wrapped, and the file is never read. */
  lemma ExpansionFailureSkipsRead(host: Host, p: string, otherRead: string -> ReadOutcome)
    requires host.expand(p).err.Some?
    ensures LoadAt(host, p) == Err(ExpandFailed(host.expand(p).path, host.expand(p).err.value))
    ensures LoadAt(host.(readFile := otherRead), p) == LoadAt(host, p)
  {
  }

  /** A missing file loads exactly as an empty one would. */
  lemma MissingFileIsEmpty(host: Host, p: string, e: OsError)
    requires host.expand(p).err.None?
    requires host.readFile(host.expand(p).path) == NotExist(e)
    ensures LoadAt(host, p) == LoadAt(host.(readFile := _ => Contents("")), p)
  {
  }

  /** Any other read error is returned as it is. */
  lemma OtherReadErrorReturned(host: Host, p: string, e: OsError)
    requires host.expand(p).err.None?
    requires host.readFile(host.expand(p).path) == ReadError(e)
    ensures LoadAt(host, p) == Err(ReadFailed(e))
  {
  }

  /** A parse failure is returned wrapped with the expanded path. */
  lemma ParseFailureWrapped(host: Host, p: string, text: string)
    requires host.expand(p).err.None?
    requires host.readFile(host.expand(p).path) == Contents(text)
    requires ParseConfig(host.hclParse, text).Err?
    ensures LoadAt(host, p) == Err(ParseFailed(host.expand(p).path, ParseConfig(host.hclParse, text).error))
  {
  }

  /** An unknown key is reported even when decoding the same document would fail. */
  lemma KeyCheckPrecedesDecode(hclParse: string -> ParseOutcome, contents: string, items: seq<Item>, i: nat)
    requires hclParse(contents) == Parsed(ObjectList(items))
    requires i < |items| && items[i].key !in ValidKeys
    ensures ParseConfig(hclParse, contents).Err?
    ensures ParseConfig(hclParse, contents).error.UnknownKeys?
    ensures items[i].key in ParseConfig(hclParse, contents).error.keys
  {
  }

  /** Empty text, which the parser turns into an empty object list, gives the zero configuration. */
  lemma EmptyDocument(hclParse: string -> ParseOutcome)
    requires hclParse("") == Parsed(ObjectList([]))
    ensures ParseConfig(hclParse, "") == Ok(ZeroConfig)
  {
  }

  /** No BAO_CONFIG_PATH and no file at the default path: the zero configuration, no error. */
  lemma NoFileAtDefaultPath(host: Host, e: OsError)
    requires host.baoConfigPath == ""
    requires host.expand(DefaultConfigPath).err.None?
    requires host.readFile(host.expand(DefaultConfigPath).path) == NotExist(e)
    requires host.hclParse("") == Parsed(ObjectList([]))
    ensures Load(host, "") == Ok(ZeroConfig)
  {
  }

  /**
   * Decoding the entries of a `contexts` object is decoding a prefix and then
   * the rest on top of the prefix's map; an error in the prefix stops there.
   */
  lemma {:induction false} DecodeEntriesAppend(a: seq<Item>, b: seq<Item>, acc: map<string, Context>)
    ensures DecodeEntries(a + b, acc) ==
      match DecodeEntries(a, acc)
      case Ok(m) => DecodeEntries(b, m)
      case Err(e) => Err(e)
    decreases |a|
  {
    if a == [] {
      assert a + b == b;
    } else {
      var e := a[0];
      assert (a + b)[0] == e;
      assert (a + b)[1..] == a[1..] + b;
      match e.value
      case Object(fields) =>
        var base := if e.key in acc then acc[e.key] else ZeroContext;
        var ctx := DecodeContext(fields, base);
        if ctx.Ok? {
          DecodeEntriesAppend(a[1..], b, acc[e.key := ctx.value]);
        }
      case _ =>
    }
  }

  /**
   * A name maps to what its last block decodes to, on top of the context the
   * entries before that block left for it (the zero context when none did).
   */
  lemma DecodeEntriesLastBlock(entries: seq<Item>, acc: map<string, Context>, j: nat)
    requires DecodeEntries(entries, acc).Ok?
    requires j < |entries| && entries[j].key !in KeySet(entries[j + 1..])
    ensures DecodeEntries(entries[..j], acc).Ok?
    ensures
      var before := DecodeEntries(entries[..j], acc).value;
      var k := entries[j].key;
      var prior := if k in before then before[k] else ZeroContext;
      && entries[j].value.Object?
      && DecodeContext(entries[j].value.items, prior).Ok?
      && k in DecodeEntries(entries, acc).value
      && DecodeEntries(entries, acc).value[k] == DecodeContext(entries[j].value.items, prior).value
  {
    var e := entries[j];
    var rest := entries[j + 1..];
    assert entries == entries[..j] + ([e] + rest);
    DecodeEntriesAppend(entries[..j], [e] + rest, acc);
    var before := DecodeEntries(entries[..j], acc).value;
    DecodeEntriesAppend([e], rest, before);
    assert ([e] + rest)[0] == e;
    assert KeySet([e]) == {e.key};
    var prior := if e.key in before then before[e.key] else ZeroContext;
    var mid := before[e.key := DecodeContext(e.value.items, prior).value];
    assert [e][1..] == [];
    assert DecodeEntries([e], before) == Ok(mid);
  }

  /** A string key written twice keeps its last value. */
  lemma LastOccurrenceWins(first: string, last: string)
    ensures DecodeConfig([Item("token_helper", Literal(first)), Item("token_helper", Literal(last))])
      == Ok(DefaultBaoConfig(last, "", map[]))
  {
    var items := [Item("token_helper", Literal(first)), Item("token_helper", Literal(last))];
    assert items[1..][1..] == [];
    assert Matches(items, "token_helper") == [Literal(first), Literal(last)];
  }

  // Round trip of context blocks: a document written from (name, context)
  // pairs decodes back to those pairs.

  /** The block `{ server = "...", namespace = "..." }` for a context. */
  function ContextBlock(c: Context): (v: Value)
  {
    Object([Item("server", Literal(c.server)), Item("namespace", Literal(c.namespace))])
  }

  /** The entries of a `contexts { ... }` object written from (name, context) pairs. */
  function BlockItems(blocks: seq<(string, Context)>): (items: seq<Item>)
  {
    if blocks == [] then []
    else [Item(blocks[0].0, ContextBlock(blocks[0].1))] + BlockItems(blocks[1..])
  }

  /** `acc` with each pair written over it in order. */
  function Overlay(acc: map<string, Context>, blocks: seq<(string, Context)>): (m: map<string, Context>)
    decreases |blocks|
  {
    if blocks == [] then acc
    else Overlay(acc[blocks[0].0 := blocks[0].1], blocks[1..])
  }

  function Names(blocks: seq<(string, Context)>): (names: set<string>)
  {
    set i | 0 <= i < |blocks| :: blocks[i].0
  }

  predicate DistinctNames(blocks: seq<(string, Context)>)
  {
    forall i, j | 0 <= i < j < |blocks| :: blocks[i].0 != blocks[j].0
  }

  /** A fully written block decodes to its context whatever the name held before. */
  lemma DecodeContextBlock(c: Context, base: Context)
    ensures DecodeContext(ContextBlock(c).items, base) == Ok(c)
  {
    var fields := ContextBlock(c).items;
    assert Matches(fields, "server") == [Literal(c.server)] by {
      assert fields[1..][1..] == [];
    }
    assert Matches(fields, "namespace") == [Literal(c.namespace)] by {
      assert fields[1..][1..] == [];
    }
  }

  lemma {:induction false} DecodeBlocks(blocks: seq<(string, Context)>, acc: map<string, Context>)
    ensures DecodeEntries(BlockItems(blocks), acc) == Ok(Overlay(acc, blocks))
    decreases |blocks|
  {
    if blocks != [] {
      var items := BlockItems(blocks);
      var b := blocks[0];
      assert items[0] == Item(b.0, ContextBlock(b.1));
      assert items[1..] == BlockItems(blocks[1..]);
      var base := if b.0 in acc then acc[b.0] else ZeroContext;
      DecodeContextBlock(b.1, base);
      DecodeBlocks(blocks[1..], acc[b.0 := b.1]);
    }
  }

  lemma NamesCons(blocks: seq<(string, Context)>)
    requires blocks != []
    ensures Names(blocks) == {blocks[0].0} + Names(blocks[1..])
  {
    assert forall i | 1 <= i < |blocks| :: blocks[i] == blocks[1..][i - 1];
  }

  /** Overlaying adds exactly the pairs' names to the keys. */
  lemma {:induction false} OverlayKeys(acc: map<string, Context>, blocks: seq<(string, Context)>)
    ensures Overlay(acc, blocks).Keys == acc.Keys + Names(blocks)
    decreases |blocks|
  {
    if blocks != [] {
      NamesCons(blocks);
      OverlayKeys(acc[blocks[0].0 := blocks[0].1], blocks[1..]);
    }
  }

  /** A name no pair mentions keeps its old context. */
  lemma {:induction false} OverlayKeeps(acc: map<string, Context>, blocks: seq<(string, Context)>, k: string)
    requires k in acc && k !in Names(blocks)
    ensures k in Overlay(acc, blocks) && Overlay(acc, blocks)[k] == acc[k]
    decreases |blocks|
  {
    if blocks != [] {
      NamesCons(blocks);
      OverlayKeeps(acc[blocks[0].0 := blocks[0].1], blocks[1..], k);
    }
  }

  lemma DistinctTail(blocks: seq<(string, Context)>)
    requires blocks != [] && DistinctNames(blocks)
    ensures DistinctNames(blocks[1..]) && blocks[0].0 !in Names(blocks[1..])
  {
    var rest := blocks[1..];
    assert forall i | 0 <= i < |rest| :: rest[i] == blocks[i + 1];
  }

  /** With distinct names, the map gains one entry per pair. */
  lemma {:induction false} OverlaySize(acc: map<string, Context>, blocks: seq<(string, Context)>)
    requires DistinctNames(blocks) && acc.Keys !! Names(blocks)
    ensures |Overlay(acc, blocks)| == |acc| + |blocks|
    decreases |blocks|
  {
    if blocks != [] {
      NamesCons(blocks);
      DistinctTail(blocks);
      var acc' := acc[blocks[0].0 := blocks[0].1];
      assert acc'.Keys == acc.Keys + {blocks[0].0};
      OverlaySize(acc', blocks[1..]);
    }
  }

  /** With distinct names, each pair's name maps to that pair's context. */
  lemma {:induction false} OverlayValues(acc: map<string, Context>, blocks: seq<(string, Context)>, i: nat)
    requires DistinctNames(blocks) && i < |blocks|
    ensures blocks[i].0 in Overlay(acc, blocks) && Overlay(acc, blocks)[blocks[i].0] == blocks[i].1
    decreases |blocks|
  {
    DistinctTail(blocks);
    var acc' := acc[blocks[0].0 := blocks[0].1];
    if i == 0 {
      OverlayKeeps(acc', blocks[1..], blocks[0].0);
    } else {
      assert blocks[i] == blocks[1..][i - 1];
      OverlayValues(acc', blocks[1..], i - 1);
    }
  }

  /** The top-level items of a document holding a current-context name and context blocks. */
  function ContextsDocument(current: string, blocks: seq<(string, Context)>): (items: seq<Item>)
  {
    [Item("current_context", Literal(current)), Item("contexts", Object(BlockItems(blocks)))]
  }

  lemma DecodeContextsDocument(current: string, blocks: seq<(string, Context)>)
    ensures CheckHclKeys(ContextsDocument(current, blocks), ValidKeys) == []
    ensures DecodeConfig(ContextsDocument(current, blocks)) == Ok(DefaultBaoConfig("", current, Overlay(map[], blocks)))
  {
    var items := ContextsDocument(current, blocks);
    assert items[1..][1..] == [];
    assert Matches(items, "token_helper") == [];
    assert Matches(items, "current_context") == [Literal(current)];
    assert Matches(items, "contexts") == [Object(BlockItems(blocks))];
    assert DecodeString(Matches(items, "token_helper"), "", "token_helper") == Ok("");
    assert DecodeString(Matches(items, "current_context"), "", "current_context") == Ok(current);
    DecodeBlocks(blocks, map[]);
    assert [Object(BlockItems(blocks))][1..] == [];
    assert DecodeContextMaps(Matches(items, "contexts"), map[]) == Ok(Overlay(map[], blocks));
  }

  /**
   * A document with a current-context name and N context blocks of distinct
   * names decodes to a configuration whose map has exactly N entries, each
   * with that block's server and namespace.
   */
  lemma ContextsDocumentRoundTrip(hclParse: string -> ParseOutcome, contents: string, current: string, blocks: seq<(string, Context)>)
    requires DistinctNames(blocks)
    requires hclParse(contents) == Parsed(ObjectList(ContextsDocument(current, blocks)))
    ensures ParseConfig(hclParse, contents).Ok?
    ensures ParseConfig(hclParse, contents).value.tokenHelper == ""
    ensures ParseConfig(hclParse, contents).value.currentContext == current
    ensures |ParseConfig(hclParse, contents).value.contexts| == |blocks|
    ensures ParseConfig(hclParse, contents).value.contexts.Keys == Names(blocks)
    ensures forall i | 0 <= i < |blocks| :: ParseConfig(hclParse, contents).value.contexts[blocks[i].0] == blocks[i].1
  {
    DecodeContextsDocument(current, blocks);
    var m := Overlay(map[], blocks);
    assert ParseConfig(hclParse, contents) == Ok(DefaultBaoConfig("", current, m));
    OverlayKeys(map[], blocks);
    OverlaySize(map[], blocks);
    forall i | 0 <= i < |blocks| ensures m[blocks[i].0] == blocks[i].1 {
      OverlayValues(map[], blocks, i);
    }
  }

  /** `current_context = "prod"` with a `prod` block at the default path: that block is current. */
  lemma ProdScenario(host: Host, text: string)
    requires host.baoConfigPath == ""
    requires host.expand(DefaultConfigPath).err.None?
    requires host.readFile(host.expand(DefaultConfigPath).path) == Contents(text)
    requires host.hclParse(text) == Parsed(ObjectList(ContextsDocument("prod", [("prod", Context("https://x", "ns1"))])))
    ensures Load(host, "").Ok? && Load(host, "").value.currentContext == "prod"
    ensures "prod" in Load(host, "").value.contexts
    ensures Load(host, "").value.contexts["prod"] == Context("https://x", "ns1")
  {
    var blocks := [("prod", Context("https://x", "ns1"))];
    ContextsDocumentRoundTrip(host.hclParse, text, "prod", blocks);
    assert blocks[0].0 == "prod";
  }

  /** A top-level `bogus_key = 1` is rejected, naming the key. */
  lemma UnknownKeyScenario(hclParse: string -> ParseOutcome, contents: string)
    requires hclParse(contents) == Parsed(ObjectList([Item("bogus_key", Literal("1"))]))
    ensures ParseConfig(hclParse, contents) == Err(UnknownKeys(["bogus_key"]))
  {
    var items := [Item("bogus_key", Literal("1"))];
    assert items[1..] == [];
    assert "bogus_key" !in ValidKeys;
    assert CheckHclKeys(items[1..], ValidKeys) == [];
    assert CheckHclKeys(items, ValidKeys) == ["bogus_key"];
  }

  /** Display records lose nothing: the context can be read back from its record. */
  lemma DisplayRoundTrip(contexts: map<string, Context>, k: string)
    requires k in contexts
    ensures k in DisplayOf(contexts) && ContextOfRecord(DisplayOf(contexts)[k]) == contexts[k]
  {
  }
}
