# OpenBao CLI configuration: resolution pipeline and `config list`

This project models how the OpenBao CLI finds, reads, checks and decodes its
configuration file (`~/.bao` by default), and how it derives the current
context and the context listing from it. It also models the exit-code rule of
the `bao config list` command, which prints that listing.

- `wrappers.dfy` (module `Wrappers`): `Option` and `Result`. These stand for
  Go's nil pointers and its `(value, error)` returns.
- `hcl.dfy` (module `Hcl`): the object-list AST that the HCL parser produces.
  The root is or is not an object list. An object list is a sequence of
  `(key, value)` items. A value is a literal, an object or a list.
- `api_config.dfy` (module `Api`): `api/config.go`.
  - `LoadConfig` is an imperative method that reassigns its `path` step by
    step, as the source does. It is proved equal to the function `Load`.
    `Load` states the precedence declaratively through `SelectedPath`: a
    non-empty `BAO_CONFIG_PATH`, then a non-empty argument, then `~/.bao`.
  - `ParseConfig` runs a chain of checks: the HCL parse, the root-shape check,
    the key allow-list (`CheckHclKeys`), and then the decode.
  - The decode walks the struct fields in declaration order.
  - `CurrentContext` and `ListContexts` are methods that call `LoadConfig`.
    `ListContexts` fills a fresh map in a loop over the context names.
- `command_config_list.dfy` (module `ConfigList`): `command/config_list.go`.
  - `ConfigListCommand` is a class. Its fields are the `-detailed` flag target
    and the trace of everything sent to the UI.
  - `Run` handles usage errors, calls `ListContexts`, and hands the rest to the
    pure decision `AfterList`. `AfterList` accepts any triple, so nil maps
    are covered too.
  - `Run`'s contract proves that after a real `ListContexts` the nil-map
    branches are dead.

The program's environment is a `Host` value with four fields:

- the value that `ReadBaoVariable("BAO_CONFIG_PATH")` yields,
- `homedir.Expand`,
- `os.ReadFile`, with the `os.IsNotExist` classification already applied,
- `hcl.Parse`.

Where the documentation and the code disagree, the model follows the code:

- The doc comment at `api/config.go:54-56` suggests that an explicit path
  argument beats the environment variable. The code at `api/config.go:61-63`
  replaces the path with a non-empty `BAO_CONFIG_PATH` in every case.
  `Api.EnvironmentOverridesArgument` states the code's behaviour.
- In table format, a configuration with no contexts does not report "No
  contexts found" and does not exit with 2. `ListContexts` always returns a map
  made with `make`, even when it is empty. The command therefore prints the
  current-context line and passes the empty map to `OutputData`
  (`ConfigList.EmptyConfigurationReachesOutputData`).
- The doc comment at `api/config.go:42-43` says an already loaded
  configuration is returned. `BaoConfig` caches nothing and calls
  `LoadConfig("")` on every call, so `Api.BaoConfig` is stated as exactly
  that call.
- When home expansion fails, the wrapped error quotes the path that
  `homedir.Expand` returned along with its error. It does not quote the path
  before expansion, because `path, err := homedir.Expand(path)` reassigns
  `path` first.

## Model

| member | source | states |
|---|---|---|
| `Api.SelectedPath` | api/config.go:58-63 | the path given to expansion is never empty, and it is the environment value, the argument or the default |
| `Api.LoadConfig` | api/config.go:57-82 | the step-by-step reassignment of `path`, then expand, tolerant read, parse and wrap, equals `Load`: precedence env > argument > default, then expansion, read and parse at the chosen path |
| `Api.BaoConfig` | api/config.go:44-52 | returns exactly what `LoadConfig("")` returns |
| `Api.DefaultPathWhenNothingGiven` | api/config.go:58-60 | with no argument and an unset or empty `BAO_CONFIG_PATH`, loading is loading at `~/.bao` |
| `Api.EnvironmentOverridesArgument` | api/config.go:61-63 | a non-empty `BAO_CONFIG_PATH` is the path whatever argument is given |
| `Api.ArgumentWithoutEnvironment` | api/config.go:58-63 | without `BAO_CONFIG_PATH`, a non-empty argument is the path |
| `Api.ExpansionFailureSkipsRead` | api/config.go:66-69 | a failed expansion gives an error carrying the expansion error and no config; the result does not depend on the file system |
| `Api.MissingFileIsEmpty` | api/config.go:71-76 | a file that does not exist loads exactly as an existing empty file |
| `Api.OtherReadErrorReturned` | api/config.go:71-74 | any other read error is returned unwrapped, with no config |
| `Api.ParseFailureWrapped` | api/config.go:76-79 | a parse failure comes back wrapped with the expanded path, with no config |
| `Api.NoFileAtDefaultPath` | api/config.go:57-82 | no variable and no file at `~/.bao` gives the zero configuration and no error |
| `Api.CheckHclKeys` | api/config.go:97-104 | the result is empty exactly when every top-level key is allowed; it lists every disallowed key and only keys of the document |
| `Api.ParseConfig` | api/config.go:85-111 | a parser error is returned; a root that is not an object list gives "no root object"; disallowed keys are rejected before decoding; otherwise the decode result; success implies an object-list root with only allowed keys |
| `Api.KeyCheckPrecedesDecode` | api/config.go:97-110 | any disallowed top-level key makes the parse fail with the key error naming that key, whatever decoding would have done |
| `Api.UnknownKeyScenario` | api/config.go:97-104 | a document holding `bogus_key = 1` fails with the key error naming `bogus_key` |
| `Api.EmptyDocument` | api/config.go:85-111 | empty text, which parses to an empty object list, gives the zero configuration |
| `Api.DecodeString` | api/config.go:32-33 | a string field decodes when every occurrence is a literal; the last occurrence wins; with no occurrence the field keeps its value; otherwise the error names the field |
| `Api.DecodeContext` | api/config.go:37-40 | a context block decodes exactly when each of its `server` and `namespace` occurrences is a literal; each field then holds its last literal, or the earlier context's value when the block leaves it out |
| `Api.DecodeEntries` | api/config.go:34 | decoded context blocks add exactly their names to the map; each block must be an object; a name no block mentions keeps its context |
| `Api.DecodeEntriesAppend` | api/config.go:34 | decoding the blocks of a `contexts` object is decoding a prefix and then the rest on top of its result; an error in the prefix is final |
| `Api.DecodeEntriesLastBlock` | api/config.go:34 | a name maps to what its last block decodes to, on top of the context the earlier blocks left for it |
| `Api.DecodeContextMaps` | api/config.go:34 | every `contexts` occurrence must be an object; the names are exactly the earlier names plus those of every occurrence; a name no occurrence mentions keeps its context |
| `Api.DecodeConfig` | api/config.go:106-110 | decoding succeeds exactly when every `token_helper` and `current_context` is a literal and the `contexts` occurrences decode; on success the two strings are their last literals, or empty when absent, and the map is the merged `contexts`; an empty document gives the zero configuration |
| `Api.LastOccurrenceWins` | api/config.go:32 | a `token_helper` written twice decodes to its second value |
| `Api.DecodeBlocks` | api/config.go:106-110 | context blocks written from (name, context) pairs decode to those pairs written over the map in order |
| `Api.ContextsDocumentRoundTrip` | api/config.go:106-110 | a document with a current-context name and N context blocks of distinct names gives a configuration with exactly N contexts, each with its block's server and namespace |
| `Api.ProdScenario` | api/config.go:115-120 | `current_context = "prod"` and a `prod` block with server `https://x` and namespace `ns1` at `~/.bao` make that block the current context |
| `Api.CurrentContext` | api/config.go:115-121 | returns the context named as current, or the zero context when the name is absent, with no error; on a load failure, the zero context and the error |
| `Api.DisplayRecord` | api/config.go:134 | the record has exactly the keys `namespace` and `server`, holding the context's namespace and server |
| `Api.DisplayOf` | api/config.go:132-136 | the display map has the same names as the context map, and each value is that context's record |
| `Api.DisplayRoundTrip` | api/config.go:134 | the context can be read back from its display record |
| `Api.ListedFrom` | api/config.go:125-138 | on a load failure, `(nil, "", err)`; on success a non-nil map over the same names, the current-context name unchanged and no error; a listing without an error is never nil |
| `Api.ListContexts` | api/config.go:125-138 | the loop that fills the freshly made map returns what `ListedFrom` gives for `LoadConfig("")` |
| `ConfigList.AfterList` | command/config_list.go:80-99 | a listing error exits 2 with "Error listing contexts"; a nil map exits 2, with an empty data object outside table format and "No contexts found" in it; otherwise the current-context line precedes the data and the exit code is OutputData's |
| `ConfigList.ConfigListCommand.Run` | command/config_list.go:66-100 | a flag error or leftover arguments give 1 with one error message, and no listing happens; otherwise `AfterList` on the real listing decides; after a successful load the code is OutputData's, after the current-context line |
| `ConfigList.SuccessfulListingReachesOutputData` | command/config_list.go:86-99 | after a successful load the nil-map branches are unreachable; the data always reaches OutputData |
| `ConfigList.NoContextsFoundUnreachable` | command/config_list.go:93-96 | "No contexts found" is never printed for a listing built from a load result |
| `ConfigList.EmptyConfigurationReachesOutputData` | command/config_list.go:97-99 | a configuration without contexts prints the current-context line and sends an empty map to OutputData, in every format |

## Left out

- The HCL grammar and `hcl.Parse` are a foreign library. The parser is an input function from text to the abstract AST. Lemmas that need "empty text parses to an empty object list" take it as a precondition.
- The internals of `hcl.DecodeObject` are a foreign library and are modelled as a structural walk.
  - Fields are decoded in struct declaration order.
  - A string field accepts any literal, as its text.
  - A later occurrence of a key overrides an earlier one.
  - `contexts` objects merge by name, and a repeated block starts from the earlier context.
  - Keys inside a context block other than `server` and `namespace` are ignored.
  - Items with several keys (`contexts "prod" { ... }`) are not modelled.
  - Parser positions inside decode errors are not modelled.
  - Keys are matched exactly. The HCL decoder matches field names without
    regard to case (`strings.EqualFold`), so `Server = "x"` sets the server
    there, while the model ignores it.
  - The decoder visits struct fields through a Go map, so its field order is
    not fixed. The order token_helper, current_context, contexts only decides
    which error is reported when several fields are malformed.
- The internals of `hclutil.CheckHCLKeys` are not part of this model. Only "every top-level key is in the allowed list" is stated. Its error carries the offending keys, and the error's wording is not modelled.
- `homedir.Expand`, `os.ReadFile` and `ReadBaoVariable` are OS and environment access. They are fields of `Host`. Home-directory lookup and the prefix rules of expansion are not modelled.
- The exact wording of the wrapped errors (`api/config.go:68`, `api/config.go:78`) and of the command's messages is string formatting. Messages are constructors that carry the values they print.
- Go's nil `Contexts` map inside a decoded configuration is the empty map. Lookups and ranges treat both alike. The nil-versus-empty distinction is kept where the command tests it: the map returned by `ListContexts`.
- The command's UI, `Format`, `OutputData`, flag-set construction, `Help`, `Synopsis`, `AutocompleteArgs` and `AutocompleteFlags` are UI and formatter plumbing.
  - The output format is an input string.
  - `OutputData` is an input function that gives the exit code.
  - Flag parsing is an input: an error, or the `-detailed` value and the arguments left.
- `ConfigList.ConfigListCommand.Run`: after a flag-parse error, the model leaves `flagDetailed` unchanged. Writes that the flag parser may have made before failing are not modelled.
- `command/config.go` is help text only. Its `Run` returns the help result.
- `cli_auth_sigtstp.go` is a constant list of OS signals.
