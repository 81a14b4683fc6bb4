# o-must-gather `parse`: a Dafny model

This project models the `parse` sub-command of o-must-gather in Dafny.
`parse` reads JSON files from a must-gather snapshot of an OpenShift cluster and prints report tables from them.
The model covers:

- the command registry `parser_map`: each command name, its help text, its input file, its error policy and its extractor;
- the help listing;
- the file reader;
- the JSON loader;
- the generic table builder `print_table`;
- the dispatcher `parser_main`;
- the two Prometheus reports:
  - `prom_status_tsdb` compares the TSDB status of the two Prometheus replicas `prometheus-k8s-0` and `prometheus-k8s-1`;
  - `prom_show_all` runs every etcd report.

Modules, one per file:

- `Py` (`py.dfy`) models the Python behaviour the code relies on:
  - decoded JSON values;
  - `d[k]` on dicts, lists and strings, with its KeyError, IndexError and TypeError;
  - negative indices;
  - chained subscripts evaluated left to right;
  - `len`.
- `Text` (`text.dfy`) models `str.upper()` and `str(n)`.
- `Registry` (`registry.dfy`) models `parser_map` and lookups in it.
- `Parser` (`parser.dfy`) models `help`, `file_reader`, `_load_buffer_as_json`, `print_table` and `parser_main`.
- `PrometheusOut` (`prometheus_out.dfy`) models `prom_status_tsdb` and `prom_show_all`.

The model keeps the code's own form:

- Pure logic is written as functions.
- Loops that build a result are written as methods with loop invariants. These are the help rows, the rows of `print_table`, the top-N loops and the two loops of `prom_show_all`.
- Each method is proved equal to a specification function, or it states its result outright.

Inputs from outside the code are passed in as parameters:

- the snapshot directory is `fs: string -> FsAnswer`;
- `json.loads` is `loads: string -> DecodeOutcome`;
- the number formatters `fmt_sizeof`, `fmt_countof` and `fmt_date_from_ts` are `Formatters`;
- every call `fn_out(buffer)` that `parser_main` makes is `run: Invocation -> Effect`, which says how the call ends. For the prometheus-status-tsdb entry, `PrometheusOut.TsdbDispatch` takes `run` to behave as the model of `prom_status_tsdb` (`PrometheusOut.TsdbEffect`) and derives what `parser_main` then does.

An exception is a `Result` error value, and it propagates the way Python propagates it. A report is the sequence of tables it would print, in order.

Behaviour of the code worth noting:

- **Shorter replica list.** A top-N table whose replica-1 list is shorter than replica 0's raises IndexError (`PrometheusOut.TopNShorterReplicaRaises`). It is not truncated to the shorter list. The loop bound is replica 0's length, and replica 1 is subscripted with the same index.
- **Empty list in `print_table`.** `print_table` with an empty list of records prints an empty table. It does not print a "no data" message.
- **Rows in `print_table`.** Each row holds its own record's values in that record's own key order. Rows are not projected onto the first record's keys. `Parser.InferredColumnsAligned` states when the columns line up.
- **Exceptions from `parser_main`.** `parser_main` can end with an exception. Any exception other than KeyError that an extractor raises is re-raised. A KeyError raised inside an extractor, for example a missing key in a tsdb.json document, shows the help listing as if the command were unknown (`PrometheusOut.TsdbMissingStatShowsHelp`). The IndexError of a shorter replica-1 list leaves `parser_main` (`PrometheusOut.TsdbShorterReplicaPropagates`).
- **Help texts.** Both Prometheus entries carry the help text "Parser alerts firing exported by ...". The model keeps the text exactly.

## Model

| member | source | states |
|---|---|---|
| Py.DictGet | omg/cmd/parser/__init__.py:155-156 | a failed dict subscript raises KeyError |
| Py.DictGetFound | omg/cmd/parser/__init__.py:155-156 | `d[k]` succeeds exactly when k is one of d's keys, and yields a value stored under k |
| Py.DictGetAt | omg/cmd/parser/__init__.py:155-156 | iterating `d.keys()` and subscripting returns each key's own value (keys are distinct) |
| Py.NormalizeIndex | omg/cmd/parser/prometheus_out.py:92 | a list index is valid exactly when -len <= i < len, and the position it picks is congruent to i modulo len |
| Py.Subscript | omg/cmd/parser/prometheus_out.py:56 | a list or string subscript succeeds exactly when -len <= i < len and yields the element (one-character string) at the normalised position, otherwise raises IndexError; a name subscript on a list or string raises TypeError; a name subscript on a dict is a dict lookup, an integer one raises KeyError; subscripting a number, bool or null raises TypeError |
| Py.PathAppend | omg/cmd/parser/prometheus_out.py:92 | a chain of subscripts can be split anywhere: the first failure stops the chain, otherwise the rest applies to the intermediate value |
| Py.Len | omg/cmd/parser/prometheus_out.py:89 | `len` of a list is its item count, of a dict its key count, of a string its character count; anything else raises TypeError |
| Text.UpperChar | omg/cmd/parser/__init__.py:90 | a lower-case letter becomes the upper-case letter at the same alphabet position; every other character is unchanged; the result is never lower-case |
| Text.Upper | omg/cmd/parser/__init__.py:90 | `str.upper()` keeps the length, leaves no lower-case letter and changes no other character |
| Text.UpperAllIdempotent | omg/cmd/parser/__init__.py:90 | upper-casing the headers a second time changes nothing |
| Text.NatToString | omg/cmd/parser/prometheus_out.py:91 | `str(n)` is a non-empty string of decimal digits |
| Text.ParseNatToString | omg/cmd/parser/prometheus_out.py:91 | reading the digits of `str(n)` back gives n, and the numeral has no leading zero unless n is 0 |
| Text.NatToStringInjective | omg/cmd/parser/prometheus_out.py:91 | two numbers print the same exactly when they are equal |
| Registry.Find | omg/cmd/parser/__init__.py:175 | a lookup succeeds exactly when some entry has the key, and yields a descriptor stored in the registry |
| Registry.FindAt | omg/cmd/parser/__init__.py:92-95 | with unique keys, each key finds its own entry |
| Registry.RegistryWellFormed | omg/cmd/parser/__init__.py:18-79 | registry keys are unique, every descriptor's `command` equals its key, and every entry without an input file has `ignore_err` True |
| Registry.Lookup | omg/cmd/parser/__init__.py:175 | `parser_map[name]` succeeds exactly for registered names; the descriptor's command is the name; an entry with empty `file_in` ignores read errors |
| Registry.LookupAt | omg/cmd/parser/__init__.py:92-95 | iterating the keys and subscripting finds each entry in declaration order |
| Parser.Help | omg/cmd/parser/__init__.py:82-98 | the listing has one more row than the registry has entries: row 0 is COMMAND/HELPER, row i+1 is entry i's command and helper |
| Parser.HelpOf | omg/cmd/parser/__init__.py:86-96 | the same listing over any registry with unique keys |
| Parser.HelpRow | omg/cmd/parser/__init__.py:93-96 | the inner loop yields the descriptor's command then its helper |
| Parser.UpperHeaders | omg/cmd/parser/__init__.py:86-90 | the upper-cased header row is exactly COMMAND, HELPER |
| Parser.FileReader | omg/cmd/parser/__init__.py:115-131 | the error flag is set exactly when opening or reading fails, and then the buffer is empty; otherwise the buffer is the file's contents |
| Parser.LoadBufferAsJson | omg/cmd/parser/__init__.py:101-112 | the flag is set exactly when decoding fails; a decode error yields the tag "JSONDecodeError"; success yields the decoded document |
| Parser.PrintTable | omg/cmd/parser/__init__.py:134-159 | explicit non-empty headers and rows win; otherwise a missing `data` gives the error message; otherwise headers are the first record's keys (none for an empty list) and there is one row per record holding its values in its key order |
| Parser.InferredColumnsAligned | omg/cmd/parser/__init__.py:149-157 | for a record whose key order equals the first record's, column j holds the value stored under header j |
| Parser.ParserMain | omg/cmd/parser/__init__.py:162-189 | `show` or an absent or empty command gives the help listing; the read error is only ever returned for a non-empty command with `show` off |
| Parser.ParserMainUsesFirstWord | omg/cmd/parser/__init__.py:174 | only the first word of the command list affects the outcome |
| Parser.UnknownCommandShowsHelp | omg/cmd/parser/__init__.py:175-185 | an unregistered name ends in the help listing, not a failure |
| Parser.KnownCommandPolicy | omg/cmd/parser/__init__.py:175-185 | for a known name, the read error is returned exactly when the read failed and `ignore_err` is not True; otherwise `fn_out` is called once with the buffer, and its KeyError becomes the help listing while other exceptions propagate |
| Parser.SelfLoadingCommandsAlwaysRun | omg/cmd/parser/__init__.py:175-182 | the entries without an input file always reach their extractor, with the buffer from reading the snapshot root |
| PrometheusOut.BuildHeadStats | omg/cmd/parser/prometheus_out.py:46-76 | the four appends build exactly the headStats rows, or raise the first failing subscript's exception |
| PrometheusOut.HeadStatsComplete | omg/cmd/parser/prometheus_out.py:54-73 | the headStats table is built exactly when both replicas have numSeries, chunkCount, minTime and maxTime |
| PrometheusOut.HeadStatsOrder | omg/cmd/parser/prometheus_out.py:54-73 | its rows are numSeries, chunkCount, minTime, maxTime in that order, replica 0 then replica 1, counts formatted with the count formatter and times with the date formatter |
| PrometheusOut.HeadStatsRowOk | omg/cmd/parser/prometheus_out.py:54-58 | a row is built exactly when both replicas have the statistic |
| PrometheusOut.BuildTopN | omg/cmd/parser/prometheus_out.py:89-96 | the loop over replica 0's list yields exactly the top-N rows, or the first exception |
| PrometheusOut.TopNRow | omg/cmd/parser/prometheus_out.py:90-96 | a row that builds has five cells, the first being its rank label `#idx+1` |
| PrometheusOut.TopNErrorSticks | omg/cmd/parser/prometheus_out.py:89-96 | once a row raises, the whole table raises that exception |
| PrometheusOut.TopNRowsUpToShape | omg/cmd/parser/prometheus_out.py:89-96 | row i is the row built from index i and is labelled with rank i+1 |
| PrometheusOut.TopNRowCount | omg/cmd/parser/prometheus_out.py:89 | a completed table has exactly as many rows as replica 0's list has entries |
| PrometheusOut.TopNLabelsDistinct | omg/cmd/parser/prometheus_out.py:91 | rank labels #1, #2, ... never repeat |
| PrometheusOut.EntryLookup | omg/cmd/parser/prometheus_out.py:92 | subscripting entry idx of a list raises IndexError past the end and otherwise subscripts that entry |
| PrometheusOut.TopNPairsByPosition | omg/cmd/parser/prometheus_out.py:89-96 | when replica 1's list is at least as long, row i pairs entry i of each replica by position, whatever the names, and replica 1's extra entries are not shown |
| PrometheusOut.AllRowsOk | omg/cmd/parser/prometheus_out.py:89-96 | the table completes when every row succeeds |
| PrometheusOut.TopNShorterReplicaRaises | omg/cmd/parser/prometheus_out.py:89-96 | when replica 1's list is shorter, the table raises IndexError instead of truncating |
| PrometheusOut.TopNMissingOrEmpty | omg/cmd/parser/prometheus_out.py:89 | a missing top-N key in replica 0 raises KeyError; an empty list yields an empty table without consulting replica 1 |
| PrometheusOut.TsdbTables | omg/cmd/parser/prometheus_out.py:46-164 | once both documents are loaded the report never aborts: it ends with printed tables, possibly followed by an exception (which tables: TsdbTablesOrder, TsdbTablesRaised) |
| PrometheusOut.TsdbTablesRaised | omg/cmd/parser/prometheus_out.py:46-164 | when an exception stops the report, either headStats raised it and nothing was printed, or headStats and the complete top-N tables before the failing one were printed, and the failing top-N table raised that exception |
| PrometheusOut.TopNTablesRaised | omg/cmd/parser/prometheus_out.py:78-164 | when a top-N block raises, the blocks printed before it are complete and the next section's rows raised the exception |
| PrometheusOut.TopNBlock | omg/cmd/parser/prometheus_out.py:78-98 | a block either raises the exception its section's rows raise, leaving the printed tables unchanged, or appends one table holding that section's title, headers and rows |
| PrometheusOut.TopNTables | omg/cmd/parser/prometheus_out.py:78-164 | blocks only append to what is already printed; without an exception every section is printed |
| PrometheusOut.LoadReplicas | omg/cmd/parser/prometheus_out.py:19-44 | steps run in order and stop at the first failing read or decode; if all succeed the decoded replica documents are returned |
| PrometheusOut.LoadingIsDecided | omg/cmd/parser/prometheus_out.py:26-44 | either some loading step is the first to fail or all four succeed |
| PrometheusOut.PrintTsdbTables | omg/cmd/parser/prometheus_out.py:46-164 | printing yields exactly the specified sequence of tables |
| PrometheusOut.PrintTopNTables | omg/cmd/parser/prometheus_out.py:78-164 | the four blocks print the top-N tables in section order |
| PrometheusOut.PrintTopNBlock | omg/cmd/parser/prometheus_out.py:100-120 | one block builds its rows, then prints its table or stops with the exception |
| PrometheusOut.TopNTablesStep | omg/cmd/parser/prometheus_out.py:78-164 | after each block, printing stops with that block's exception or continues with the remaining sections |
| PrometheusOut.PromStatusTsdb | omg/cmd/parser/prometheus_out.py:10-164 | a failure at loading step k returns before printing, after steps 0..k; otherwise all four steps ran and the five tables are printed from the two decoded documents |
| PrometheusOut.TsdbTablesOrder | omg/cmd/parser/prometheus_out.py:46-164 | a complete report has five tables: headStats with its four rows, then the four top-N tables in fixed order, each with its section's headers and rows |
| PrometheusOut.TopNTablesContents | omg/cmd/parser/prometheus_out.py:78-164 | every printed top-N table carries its section's title, headers and rows |
| PrometheusOut.TsdbEffect | omg/cmd/parser/prometheus_out.py:26-44 | a failed loading step returns normally; once loaded, the call returns exactly when the tables print without an exception, and otherwise raises that exception |
| PrometheusOut.TsdbDispatch | omg/cmd/parser/__init__.py:175-185 | the prometheus-status-tsdb command always runs the report; a loading failure or a complete report ends normally, a KeyError ends in the help listing, any other exception propagates |
| PrometheusOut.TsdbMissingStatShowsHelp | omg/cmd/parser/__init__.py:183-185 | a replica 0 document without `data.headStats.numSeries` makes `parser_main` show the help listing after the call |
| PrometheusOut.TsdbShorterReplicaPropagates | omg/cmd/parser/__init__.py:186-187 | a replica 1 series-count list shorter than replica 0's makes `parser_main` re-raise IndexError |
| PrometheusOut.SectionFormatters | omg/cmd/parser/prometheus_out.py:133-140 | memoryInBytesByLabelName uses the size formatter and the three other tables the count formatter |
| PrometheusOut.EtcdSelection | omg/cmd/parser/prometheus_out.py:175-181 | the selection is never longer than the registry |
| PrometheusOut.EtcdSelectionMembers | omg/cmd/parser/prometheus_out.py:175-181 | a descriptor is selected exactly when an entry whose key passes the etcd filter holds it |
| PrometheusOut.EtcdSelectionStep | omg/cmd/parser/prometheus_out.py:176-181 | each further key adds its descriptor exactly when it passes the filter |
| PrometheusOut.EtcdSelectionOfLayout | omg/cmd/parser/prometheus_out.py:176-181 | a registry laid out as three etcd reports followed by other keys selects those three, in order |
| PrometheusOut.RegistryEtcdKeys | omg/cmd/parser/prometheus_out.py:177-180 | the three etcd report keys pass the filter; etcd-all and the other keys do not |
| PrometheusOut.EtcdKey | omg/cmd/parser/prometheus_out.py:177-180 | a key starting with "etcd-" and not continuing with "a" passes the filter |
| PrometheusOut.OtherKey | omg/cmd/parser/prometheus_out.py:177-178 | a key not starting with "e" fails the filter |
| PrometheusOut.RegistryEtcdSelection | omg/cmd/parser/prometheus_out.py:175-181 | on the registry, exactly the member-list, endpoint-health and endpoint-status reports are selected, in that order |
| PrometheusOut.PromShowAll | omg/cmd/parser/prometheus_out.py:167-187 | each selected report's extractor is called in order with its file's buffer, read error or not; an exception ends the run after the call that raised |
| PrometheusOut.ShowAllOf | omg/cmd/parser/prometheus_out.py:175-187 | the same over any registry with unique keys that equal the descriptors' commands |
| PrometheusOut.SelectEtcd | omg/cmd/parser/prometheus_out.py:175-181 | the first loop collects exactly the etcd selection |
| PrometheusOut.FindSelected | omg/cmd/parser/prometheus_out.py:185 | looking a selected descriptor up again by its `command` finds that descriptor |

## Left out

- The snapshot directory (`Config().path`, `os.path.join`, `open`) is the parameter `fs`. The model does not capture which paths are directories or exist on disk.
- `json.loads` is the parameter `loads`. JSON text syntax and duplicate object keys are not modelled.
- `tabulate` and the printed text are not modelled. Reports are the headers and rows handed to it. Table styles, column alignment (`colalign=("right")` is a plain string, not a tuple), the section banners and the diagnostic `print` lines are left out.
- `fmt_sizeof`, `fmt_countof` and `fmt_date_from_ts` are not part of this model. They are taken as given total functions, so an exception raised inside one of them is not modelled.
- The etcd and alerts extractors (`etcd_out`, `alerts_out`) are not part of this model. They appear through `run`, which says how each call ends. `run` is a free parameter: only for the prometheus-status-tsdb entry is it tied to a modelled report, as a hypothesis of `PrometheusOut.TsdbDispatch`.
- `prom_status_runtime_buildinfo` is referenced by the registry but does not exist in `prometheus_out.py`, so importing the registry raises AttributeError in the code. The model keeps the entry, with an extractor handled by `run`, and does not model the import failure.
- Text.Upper: upper-cases ASCII letters only, not all of Unicode. It is only applied to the fixed headers "command" and "helper".
- Parser.PrintTable: only models records that are decoded JSON objects. Arbitrary Python objects passed as `data` are not modelled.
- Parser.ParserMain: the final `return print("No resources was found")` can never be reached, and is not modelled.
- Parser.ParserMain: an extractor's return value and the exception object carried by `_load_buffer_as_json` are not modelled. The outcome records which call was made and how it ended.
- `show` and `ignore_err` are booleans in the model. Python's truthiness of other values is not modelled.
- The four top-N blocks of `prom_status_tsdb` are written out four times in the code. The model has one block, `PrintTopNBlock`, applied to a table of the four sections (metric key, value word and formatter), in the code's order.
