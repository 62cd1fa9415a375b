# Contar — a verified model of its core

Contar counts the clients attached to Ubiquiti point-to-multipoint radios. It reads an
inventory of radio addresses grouped by tower, logs in to each radio over SSH, runs an
allow-listed command (`wstalist | grep -c ...`) and writes the per-radio status and client count
to a spreadsheet ordered by status urgency. This project models the core of that pipeline in
Dafny and proves what each part promises:

- **Errors** (`exceptions.dfy`). The project's exception classes and the Python and paramiko
  classes its handlers name form a hierarchy. `except C` becomes "is-a C".
- **Constants** (`constants.dfy`). Network timeouts, the `StatusRadio` values, the
  `STATUS_PRIORITY` rank table, and the `Credenciais` record whose `repr` hides its contents.
- **Records** (`data_models.dfy`). `RadioTask` (a frozen value with port 22 by default) and
  `RadioResult` (a mutable dataclass, so an object).
- **SSH client** (`ssh_client.dfy`). The class `SSHClient`, covering:
  - the allow-listed command builder and its filter check, with a proof that the built command
    line reads back as exactly the command and filters it was built from;
  - `connect`'s error ladder as written, where a closed port surfaces as SSHExecutionError
    (finding 3), beside the ladder its docstring describes, and its host-key policy;
  - `execute_safe_command`'s result and error translation;
  - `close` and the `with` protocol.
- **Engine** (`engine.dfy`). Credential lookup, engine construction, the per-radio report that
  never raises, the batch map, and the report as a dict.
- **Inventory readers** (`helpers.py` → `helpers.dfy`, `convert.py` → `convert.dfy`).
  - IP cleaning (strip, cut at ':', bracket removal) and the recursive tower/IP walk.
  - The three-format (DADOS dict / block list / `ip;tower` text) extraction into a
    tower→addresses tally with a counter.
- **Credentials by region** (`config_loader.dfy`). Per-field fallback from `<REGION>_USER` /
  `<REGION>_PASS` to `RADIO_USER` / `RADIO_PASS`.
- **Reports** (`excel_generator.dfy`, `excel_generador.dfy`, `sorting.dfy`).
  - Row normalisation with defaults and the priority sort, proved stable.
  - The timestamped output name, the save fallback and error wrapping, and the per-status row
    colour.
  - In the older writer, the status-descending sort.

Supporting modules: `options.dfy` (Option), `py_text.dfy` (Python `str` operations:
`strip`, `split`, `upper`, `int()`, `str()`, `repr`, `<`, `rfind`), `ipv4.dfy` (dotted-quad
addresses as `ipaddress` accepts them), `json_value.dfy` (JSON-like values with ordered dicts).

Everything outside the process is an input to the model. This covers the TCP probe, paramiko's
handshake and command outcome, `known_hosts`, the environment, file contents, the clock and the
spreadsheet engines. The model states the result for every combination of those inputs.

## Model

| member | source | states |
|---|---|---|
| Exceptions.Parent | app/models/exceptions.py:1-19 | each class's base is one level shallower; only `Exception` is its own base |
| Exceptions.IsAClosure | app/models/exceptions.py:1-19 | a class is-a `d` exactly when it is `d` or its base class is-a `d` |
| Exceptions.IsATransitive | app/models/exceptions.py:1-19 | is-a is transitive, so a handler for a base class catches every subclass below it |
| Exceptions.IsADepth | app/models/exceptions.py:1-19 | a subclass is never shallower than its base, and equal depth means the same class |
| Exceptions.IsAAntisymmetric | app/models/exceptions.py:1-19 | two classes that are each other's subclass are the same class |
| Exceptions.EverythingIsAnException | app/models/exceptions.py:1 | every modelled class is caught by `except Exception` |
| Exceptions.ProjectHierarchy | app/models/exceptions.py:1-19 | DeviceOffline, Authentication and SSHExecution errors are NetworkErrors and AppErrors, and none of them is an OSError or SSHException |
| Exceptions.DeviceErrorsUnrelated | app/models/exceptions.py:9-19 | the three device errors are pairwise unrelated, so each handler catches only its own |
| Constants.TimeoutsOrdered | app/utils/constants.py:13-28 | socket probe 5 s < SSH 12 s < banner 15 s, and backoff minimum ≤ maximum |
| Constants.Rank | app/utils/constants.py:74-81 | every status but Desconhecido has a rank in 0..5; Erro is 0 and Online is 5 |
| Constants.RanksDistinct | app/utils/constants.py:40-48 | distinct statuses have distinct values and distinct ranks, and Offline ranks before Online |
| Constants.PriorityTableShape | app/utils/constants.py:74-81 | the table has six entries, omits Desconhecido, and is injective |
| Constants.ReprRevealsNothing | app/utils/constants.py:68-70 | any two credential records print identically, so `repr` reveals neither user nor password |
| DataModels.RadioResult.constructor | app/models/data_models.py:14-19 | a result holds exactly the given fields, defaulting to 0 clients and an empty note |
| DataModels.Defaults | app/models/data_models.py:4-19 | a task built without a port uses 22; a result built without counts has 0 clients and "" |
| DataModels.Unvalidated | app/models/data_models.py:14-19 | nothing validates a result: any status text and a negative client count are kept |
| SshClient.AcceptedFilterIsInert | app/network/ssh_client.py:175-181 | an accepted filter is non-empty and holds no quote, pipe, space or semicolon |
| SshClient.FirstRejected | app/network/ssh_client.py:175-178 | finds the first filter the pattern rejects, and finds one exactly when one exists |
| SshClient.SafeCommand | app/network/ssh_client.py:150-186 | raises ValueError exactly when some filter is rejected; with no filters the command is the bare allow-listed command |
| SshClient.BuildSafeCommand | app/network/ssh_client.py:168-186 | the loop over filters builds exactly `SafeCommand` |
| SshClient.SafeCommandReadsBack | app/network/ssh_client.py:168-186 | a built command line parses back to exactly its command and filter list, so filters cannot inject extra stages |
| SshClient.ParseStagesOfStages | app/network/ssh_client.py:181-184 | the ` \| grep -c '"f'` stages parse back to their filters |
| SshClient.JoinedStages | app/network/ssh_client.py:183-184 | `base \| ' \| '.join(stages)` is the base followed by one ` \| ` stage per filter |
| SshClient.ConnectFailure | app/network/ssh_client.py:108-117 | every failure becomes one of the three device errors; DeviceOfflineError exactly for OS-level errors, AuthenticationError exactly for paramiko authentication errors |
| SshClient.ProbeFailureMisclassified | app/network/ssh_client.py:84-85 | as written, the closed-port DeviceOfflineError is re-raised as an "Erro desconhecido" SSHExecutionError |
| SshClient.ConnectFailureIntended | app/network/ssh_client.py:76-81 | the project's own network errors pass through unchanged; others follow `ConnectFailure` |
| SshClient.ProbeFailureIntended | app/network/ssh_client.py:84-85 | with the intended ladder a closed port is DeviceOfflineError "Host h:p inacessível" |
| SshClient.ExecFailure | app/network/ssh_client.py:233-238 | every failure of execution is an SSHExecutionError, and one already so is re-raised unchanged |
| SshClient.ExitFailureDetail | app/network/ssh_client.py:225-226 | the detail of a non-zero exit is the stripped stderr when non-empty, else exactly "Comando falhou com código N" |
| SshClient.CommandResult | app/network/ssh_client.py:210-238 | returns exactly when the command builds, completes and exits 0, and then returns the stripped stdout; otherwise SSHExecutionError |
| SshClient.CommandOutputTrimmed | app/network/ssh_client.py:222 | a returned output has no surrounding whitespace |
| SshClient.SSHClient.constructor | app/network/ssh_client.py:44-61 | keeps the connection parameters, port 22 and timeout 12 by default, with no client and not connected |
| SshClient.SSHClient.ConfigureHostKeyPolicy | app/network/ssh_client.py:130-148 | with known_hosts: RejectPolicy plus loaded system keys; without: AutoAddPolicy |
| SshClient.SSHClient.Connect | app/network/ssh_client.py:73-117 | as written: a closed port raises SSHExecutionError "Erro desconhecido ao conectar em …" and creates no client; otherwise a client with the right policy, connected exactly when the keys load and the handshake succeeds, else the translated error |
| SshClient.SSHClient.ConnectIntended | app/network/ssh_client.py:73-117 | as the docstring describes: a closed port raises DeviceOfflineError "Host h:p inacessível"; the other cases as in `Connect`, with the project's network errors passed through |
| SshClient.SSHClient.ExecuteSafeCommand | app/network/ssh_client.py:188-238 | ConnectionError unless connected with a client; otherwise `CommandResult`, and the line sent is exactly `SafeCommand` |
| SshClient.SSHClient.Close | app/network/ssh_client.py:240-250 | the client is always dropped; connected clears only when a client existed and closed cleanly |
| SshClient.SSHClient.Exit | app/network/ssh_client.py:68-71 | closes as `Close` does and never suppresses the exception |
| SshClient.RunSession | app/network/ssh_client.py:63-71 | a `with` session returns the stripped output exactly when connect, build and command all succeed; errors are the three device errors, SSHExecutionError for a closed port as written; a client whose connect failed after the probe is left open |
| Engine.ConfigPort | app/core/engine.py:43 | a missing SSH_PORT gives 22; a present one converts exactly when `int()` accepts its text, and otherwise raises ValueError |
| Engine.ConfigPortOfText | app/core/engine.py:43 | a port written as `str(p)` reads back as `p` |
| Engine.GetCredentials | app/core/engine.py:36-48 | returns (user, password, port) exactly when the port parses and both logins are non-empty, else ValueError with the source's message |
| Engine.NewEngine | app/core/engine.py:26-33 | construction succeeds exactly when credentials validate, else ValueError "Falha na validação do Engine: …" |
| Engine.CachedCredentialsAsWritten | app/core/engine.py:35-36 | the cached lookup always raises TypeError, since the dataclass instance is unhashable |
| Engine.NewEngineAsWritten | app/core/engine.py:26-36 | as written, construction always raises ValueError |
| Engine.CompleteConfigRejectedAsWritten | app/core/engine.py:26-36 | even a complete configuration is rejected as written |
| Engine.ClientCountOfText | app/core/engine.py:73 | a decimal count with surrounding whitespace reads back as that count |
| Engine.UnitReport | app/core/engine.py:55-81 | keeps ip and time; nome defaults to "N/A"; Online exactly when credentials and session succeed (count parsed, no error), else Falha with 0 clients and an error |
| Engine.FailureMessage | app/core/engine.py:76-78 | the recorded error is the failing step's message |
| Engine.ProcessUnit | app/core/engine.py:50-81 | the field-by-field update yields exactly `UnitReport`, and never raises |
| Engine.ProcessBatch | app/core/engine.py:83-90 | one report per task, in task order |
| Engine.ReportValue | app/core/engine.py:55-62 | the report dict has six keys, with status and erro (None when absent) as recorded |
| Engine.ReportValueFields | app/core/engine.py:55-62 | the dict holds the ip, client count and time under their keys |
| Engine.ReportValueLacks | app/core/engine.py:55-62 | the dict has no "torre" and no "observacao" key |
| Engine.SessionAsWritten | app/core/engine.py:69-71 | as written, a session always raises; once connected, AttributeError for `execute` |
| Engine.NeverOnlineAsWritten | app/core/engine.py:64-78 | a raising session always gives Falha with 0 clients |
| Helpers.CleanIpText | app/utils/helpers.py:11 | the cleaned text holds no ':', '[' or ']' |
| Helpers.NormalizeIp | app/utils/helpers.py:7-15 | None for a non-string or empty value; otherwise the cleaned text exactly when it is an address |
| Helpers.NormalizeIpIdempotent | app/utils/helpers.py:7-15 | normalising a normalised address gives it back |
| Helpers.NormalizeIpOfIPv4 | app/utils/helpers.py:7-15 | a valid address is returned unchanged |
| Helpers.ListFinds | app/utils/helpers.py:23-29 | at most one record per list item, each under the list's key |
| Helpers.Tasks | app/utils/helpers.py:17-35 | no record is ever filed under "METADADOS"; scalars yield nothing |
| Helpers.ExtractTasks | app/utils/helpers.py:17-35 | the recursive walk with its append/extend loops yields exactly `Tasks` |
| Helpers.ExtractList | app/utils/helpers.py:24-29 | the loop over a list value computes exactly `ListFinds`: one record per dict item with "ip", in order |
| Helpers.ListTasksConcat | app/utils/helpers.py:32-34 | a list's records are its parts' records in order |
| Helpers.DictTasksConcat | app/utils/helpers.py:20-31 | a dict's records are those of its two runs of entries, in order |
| Helpers.ListItemWalked | app/utils/helpers.py:32-34 | a one-item list yields what its item yields |
| Helpers.ListEntryNotDescended | app/utils/helpers.py:23-29 | a list under key k yields only its direct "ip" dicts under k |
| Helpers.MetadadosSkipped | app/utils/helpers.py:22 | the METADADOS entry contributes nothing |
| Helpers.ListFindsCount | app/utils/helpers.py:24-29 | a list contributes one record per dict item holding "ip" |
| Ipv4.Parse | app/utils/helpers.py:13 | parses exactly the strict dotted-quad texts |
| Ipv4.FormatOfParse | app/utils/helpers.py:13 | `str(ip_address(s))` gives back `s` for every accepted text |
| Ipv4.ParseOfFormat | app/utils/helpers.py:13 | formatting four octets parses back to them |
| Ipv4.IPv4Chars | data/convert.py:58 | an address holds only digits and dots, at least seven characters |
| JsonValue.GetOfDistinct | data/convert.py:71 | in a decoded dict, whose keys are distinct, `get` returns the one value stored under the key |
| Convert.Candidate | data/convert.py:57-59 | a candidate is an address with no ':', and the stripped text before the first ':' is returned whenever it is an address |
| Convert.CleanIp | data/convert.py:52-61 | a falsy value gives None; a string gives its stripped text before ':' exactly when that is an address |
| Convert.CleanIpOfAddress | data/convert.py:52-61 | an address surrounded by whitespace, or followed by ':' and a port, comes back as exactly that address |
| Convert.OnlyStringsYieldAddresses | data/convert.py:52-61 | numbers, booleans, lists and dicts never yield an address |
| Convert.Add | data/convert.py:82-83 | `setdefault(...).append` plus `sucesso += 1`: appends to that tower only, counts one, keeps the tally valid |
| Convert.ScanItems | data/convert.py:79-83 | filing items keeps the tally valid and adds only this tower |
| Convert.ScanTowers | data/convert.py:78-83 | the tally stays valid and every tower key comes from the DADOS section; contents in `ScanTowersInOrder` |
| Convert.ScanBlocks | data/convert.py:87-94 | the tally stays valid and list-format towers are upper case; contents in `ScanBlocksInOrder` |
| Convert.BlockTower | data/convert.py:89 | a block's tower is its `nome_torre` upper-cased, "DESCONHECIDA" when it has none, and no tower (an exception) when `nome_torre` is not text |
| Convert.ScanLines | data/convert.py:97-104 | text-format towers are upper case |
| Convert.Extension | data/convert.py:65 | the extension is empty or a dot-led text without '/' |
| Convert.Extract | data/convert.py:63-109 | distinct keys, non-empty groups of addresses, count equal to the total; other extensions, and JSON that is neither a dict with "DADOS" nor a list, give nothing; DADOS keys kept, other towers upper case |
| Convert.ExtractData | data/convert.py:63-109 | the nested loops compute exactly `Extract` |
| Convert.ExtractItems | data/convert.py:79-83 | the inner loop computes exactly `ScanItems`, stopping at a non-dict item |
| Convert.ExtractDados | data/convert.py:76-83 | the DADOS loop computes exactly `ScanDados` |
| Convert.ExtractBlocks | data/convert.py:86-94 | the list loop computes exactly `ScanBlocks` |
| Convert.ExtractLines | data/convert.py:96-104 | the text loop computes exactly `ScanLines` |
| Convert.ScanLinesInOrder | data/convert.py:97-104 | each tower receives its lines' addresses in line order |
| Convert.ScanItemsInOrder | data/convert.py:79-83 | a tower receives its items' addresses in order, and other towers are untouched |
| Convert.ScanItemsStops | data/convert.py:79-83 | an item that is not a dict ends the scan with what came before |
| Convert.ScanItemsStopped | data/convert.py:79-80 | the walk over a list stops exactly when one of its items is not a dict |
| Convert.ScanTowersInOrder | data/convert.py:78-83 | each DADOS tower receives its valid addresses in input order, up to the first exception, and no other tower's |
| Convert.ScanBlocksInOrder | data/convert.py:87-94 | each block's valid "acessos" addresses go to its tower in input order, non-dict blocks are skipped, and the scan ends at the first exception |
| Convert.ExtractContents | data/convert.py:70-104 | what each tower holds after extraction, for the DADOS, list and text formats in turn |
| ConfigLoader.GetCredentials | app/utils/config_loader.py:21-37 | returns exactly when both fields resolve to non-empty text, else ValueError naming the region |
| ConfigLoader.ResolutionPerField | app/utils/config_loader.py:29-30 | each field uses its regional key if non-empty, else the shared key, independently |
| ConfigLoader.MixedResolution | app/utils/config_loader.py:29-30 | a regional user may pair with the shared password |
| ConfigLoader.RegionKeyIdempotent | app/utils/config_loader.py:27 | normalising a region twice is normalising once |
| ConfigLoader.NormalisedRegionSame | app/utils/config_loader.py:27-37 | a normalised region name resolves to the same credentials |
| Sorting.Sort | app/utils/excel_generator.py:68-71 | sorting keeps length and multiset |
| Sorting.SortSorted | app/utils/excel_generator.py:68-71 | the result is ordered under any strict weak order |
| Sorting.SortOfSorted | app/utils/excel_generator.py:68-71 | rows already in order, ties included, are left as they are |
| Sorting.SortStable | app/utils/excel_generator.py:68-71 | stability: for any row, the rows tied with it come out in their input order |
| ExcelGenerator.PyInt | app/utils/excel_generator.py:52 | `int(v)`: numbers kept; text parses exactly when it is a decimal literal, else ValueError; None, lists and dicts raise TypeError |
| ExcelGenerator.RowOf | app/utils/excel_generator.py:47-55 | a non-dict raises AttributeError; a dict gives a row exactly when its clientes converts |
| ExcelGenerator.RowFields | app/utils/excel_generator.py:48-55 | each column is the dict's value or its default ("N/A", "Desconhecido", 0, now); Observação prefers "erro" whenever present |
| ExcelGenerator.Rows | app/utils/excel_generator.py:46-55 | one row per result, in order, or the error of a failing result |
| ExcelGenerator.RankOf | app/utils/excel_generator.py:67 | a status outside STATUS_PRIORITY ranks 999 |
| ExcelGenerator.OrderedRows | app/utils/excel_generator.py:61-72 | the sheet holds the same rows, ranks never decrease, and within a rank clients never increase |
| ExcelGenerator.StemOf | app/utils/excel_generator.py:77-79 | stem followed by suffix is the file name |
| ExcelGenerator.SuffixOf | app/utils/excel_generator.py:79 | the suffix is empty or starts with '.' |
| ExcelGenerator.OutputPath | app/utils/excel_generator.py:75-80 | unchanged without a timestamp or for stem "relatório"; otherwise the folder is kept |
| ExcelGenerator.TimestampedName | app/utils/excel_generator.py:77-80 | the new name keeps folder and extension and its stem is `stem_timestamp` |
| ExcelGenerator.Saved | app/utils/excel_generator.py:83-87 | the openpyxl outcome stands unless it is an ImportError, and only then is xlsxwriter's outcome used; any other openpyxl failure propagates |
| ExcelGenerator.Failure | app/utils/excel_generator.py:95-103 | a PermissionError stays PermissionError; anything else becomes RuntimeError |
| ExcelGenerator.Report | app/utils/excel_generator.py:44-103 | "" for no results; the output path once saved; otherwise only PermissionError or RuntimeError |
| ExcelGenerator.StatusFill | app/utils/excel_generator.py:122-129 | the colour is a six-digit code, white exactly for statuses outside the colour table |
| ExcelGenerator.ColoursMatchRanks | app/utils/excel_generator.py:122-129 | exactly the ranked statuses are coloured |
| ExcelGenerator.AplicarFormatacao | app/utils/excel_generator.py:149-160 | each saved row gets its status's colour |
| ExcelGenerator.BuildRows | app/utils/excel_generator.py:46-55 | the row-building loop computes exactly `Rows` |
| ExcelGenerator.GerarRelatorio | app/utils/excel_generator.py:24-103 | result as `Report`; the saved sheet is the ordered rows; styling failures are dropped |
| ExcelGenerator.EngineReportRow | app/core/engine.py:55-62 | an engine report becomes a row with Torre "N/A", its error as Observação, and rank 999 unless Online |
| ExcelGenerador.Dados | app/utils/excel_generador.py:18-28 | one row per result, in order, copying its fields, each stamped with its own clock reading |
| ExcelGenerador.LessAsWrittenIsStrictWeakOrder | app/utils/excel_generador.py:34 | the status-descending, clients-descending comparison is a strict weak order |
| ExcelGenerador.PlanilhaOrdered | app/utils/excel_generador.py:30-34 | the sheet holds the same rows, status text never increasing, clients never increasing within a status |
| ExcelGenerador.OnlineBeforeOfflineAsWritten | app/utils/excel_generador.py:32-34 | as written, every Online row precedes every Offline row |
| ExcelGenerador.OfflineRowsFirst | app/utils/excel_generador.py:32 | under the intended order every Offline row comes first, clients descending within each group |
| ExcelGenerador.GerarRelatorio | app/utils/excel_generador.py:36-47 | the given path once saved; else only PermissionError or RuntimeError |

## Left out

- Networking, paramiko and the file system are inputs, not code in the model. This covers the
  TCP probe, handshake, `exec_command`, `known_hosts`, file reads and spreadsheet writes. Time
  limits are kept as parameters only.
- The thread pool of `processar_em_lote` is modelled as a sequential map. `executor.map` keeps
  input order, which is all the model states.
- The `lru_cache` clearing and `gc.collect` in `__del__`, logging, and `datetime.now()` are left
  out. Timestamps are parameters.
- ExcelGenerator.Rows: one clock reading stands for every row without "hora", where the source
  reads the clock once per such row.
- The `ConfigLoader` constructor and `load_json_data` are left out, as they only read `.env` and
  JSON files.
- Tk dialogs, the log widget and the JSON writing in `processar` (data/convert.py) are left out.
  The CustomTkinter window and `main.py` are also not part of this model.
- Retry, backoff and the circuit breaker exist only as constants; there is no code for them.
- Addresses: only dotted-quad IPv4 is modelled. Every cleaner first cuts at ':', so no IPv6 text
  can reach the parser. IPv4 zone suffixes are not modelled.
- Convert.CleanIp: `str()` of a list or dict is taken to be no address. Such text starts with
  '[' or '{', which `ip_address` rejects after cutting at ':'.
- Text operations cover ASCII and Latin-1. Multi-character case mappings such as 'ß'→"SS",
  non-ASCII digits in `int()`/`isdigit()`, and `repr` escapes beyond the ones modelled are left
  out.
- JSON floats are not modelled: numbers are integers. 64-bit overflow of the `Clientes` column
  is not modelled either.
- ExcelGenerator.RankOf: a status cell holding an unhashable value (a list or dict) is ranked
  999 here, where pandas' `map` would raise.
- ExcelGenerator.OutputPath: paths are taken as already normal. pathlib's folding of `//`, `.`
  components and a trailing '/' is not modelled, nor are Windows separators.
- ExcelGenerator.AplicarFormatacao: only the fill colour of each row is modelled. Header
  styling, borders, widths and alignment are not.
- Engine.UnitReport: the session output is an input, because the command call as written does
  not exist (finding 2).
- SshClient.RunSession: `__exit__` is not run when `__enter__` raises. The model reports this
  as `leftOpen` and does not model the paramiko object that is left behind.
- BaseException-only signals (KeyboardInterrupt, SystemExit) are outside the hierarchy. Every
  modelled class is an `Exception`.

## Findings

| source | as written | input that shows it | evidently intended | confidence | as-written member | corrected member |
|---|---|---|---|---|---|---|
| app/core/engine.py:35-36 | `@lru_cache` on a method of a non-frozen `@dataclass`: the cache hashes `self`, whose `__hash__` is None, so every call raises TypeError and `__post_init__` turns it into ValueError | config {"SSH_USER": "admin", "SSH_PASSWORD": "secret"} | an engine with complete credentials is constructed | not executed | Engine.CompleteConfigRejectedAsWritten | Engine.NewEngine |
| app/core/engine.py:71 | calls `client.execute`, which SSHClient does not define, so every connected session raises AttributeError and no radio is ever Online | any reachable radio with valid credentials | run the count command and record Online with the count | not executed | Engine.SessionAsWritten | Engine.UnitReport |
| app/network/ssh_client.py:84-85, 116-117 | the DeviceOfflineError raised for a closed port falls into `except Exception` and is re-raised as SSHExecutionError "Erro desconhecido ao conectar em …" | host "10.0.0.1", port 22, probe refused | a closed port is reported as DeviceOfflineError, as the docstring of `connect` says | not executed | SshClient.ProbeFailureMisclassified | SshClient.SSHClient.ConnectIntended |
| app/utils/excel_generador.py:32-34 | sorts Status descending, so "Online" ('n') comes before "Offline" ('f') | results with statuses "Offline" and "Online" | Offline rows first, then by client count, as the comment says | not executed | ExcelGenerador.OnlineBeforeOfflineAsWritten | ExcelGenerador.OfflineRowsFirst |
