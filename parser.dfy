/** The `parse` sub-command's entry point and shared helpers: the help
    listing, the file reader, the JSON loader, the generic table builder and
    the dispatcher `parser_main`. */
module Parser {
  import opened Py
  import opened Text
  import opened Registry

  // ---------------------------------------------------------------------
  // help

  /** The help listing: a header row of upper-cased field names, then one
      `[command, helper]` row per registry entry, in declaration order. */
  method Help() returns (table: seq<seq<string>>)
    ensures |table| == |ParserMap| + 1
    ensures table[0] == ["COMMAND", "HELPER"]
    ensures forall i :: 0 <= i < |ParserMap| ==>
      table[i + 1] == [ParserMap[i].1.command, ParserMap[i].1.helper]
  {
    RegistryWellFormed();
    table := HelpOf(ParserMap);
  }

  /** The body of `help()`, over any registry with unique keys. */
  method HelpOf(registry: seq<Entry>) returns (table: seq<seq<string>>)
    requires UniqueKeys(registry)
    ensures |table| == |registry| + 1
    ensures table[0] == ["COMMAND", "HELPER"]
    ensures forall i :: 0 <= i < |registry| ==>
      table[i + 1] == [registry[i].1.command, registry[i].1.helper]
  {
    var header := ["command", "helper"];
    var first := UpperAll(header);
    assert first == ["COMMAND", "HELPER"] by { UpperHeaders(); }
    table := [first];
    for i := 0 to |registry|
      invariant |table| == i + 1 && table[0] == first
      invariant forall k :: 0 <= k < i ==>
        table[k + 1] == [registry[k].1.command, registry[k].1.helper]
    {
      FindAt(registry, i);
      var d := Find(registry, registry[i].0).value;
      var row := HelpRow(d, header);
      table := table + [row];
    }
  }

  /** The inner loop of `help()`: the descriptor's value under each header key. */
  method HelpRow(d: Descriptor, header: seq<string>) returns (row: seq<string>)
    requires header == ["command", "helper"]
    ensures row == [d.command, d.helper]
  {
    row := [];
    for h := 0 to |header|
      invariant row == [d.command, d.helper][..h]
    {
      row := row + [Field(d, header[h]).value];
    }
  }

  lemma UpperHeaders()
    ensures UpperAll(["command", "helper"]) == ["COMMAND", "HELPER"]
  {
    var c, h := Upper("command"), Upper("helper");
    assert forall i :: 0 <= i < 7 ==> c[i] == "COMMAND"[i];
    assert forall i :: 0 <= i < 6 ==> h[i] == "HELPER"[i];
    assert c == "COMMAND" && h == "HELPER";
    assert UpperAll(["command", "helper"]) == [c, h];
  }

  // ---------------------------------------------------------------------
  // file_reader and _load_buffer_as_json

  /** What opening and reading a path under the snapshot root gives. */
  datatype FsAnswer = Contents(text: string) | IsADirectory | FileNotFound | OtherOSError

  /** `file_reader(path)`: the contents and False, or "" and True on every
      kind of failure. `fs` stands for the snapshot directory. */
  function FileReader(path: string, fs: string -> FsAnswer): (r: (string, bool))
    ensures r.1 <==> !fs(path).Contents?
    ensures r.1 ==> r.0 == ""
    ensures !r.1 ==> r.0 == fs(path).text
  {
    match fs(path)
    case Contents(text) => (text, false)
    case IsADirectory => ("", true)
    case FileNotFound => ("", true)
    case OtherOSError => ("", true)
  }

  /** What `json.loads` does with a buffer: a document, a JSONDecodeError,
      or any other exception (named by its class). */
  datatype DecodeOutcome = Decoded(doc: Json) | JsonDecodeError | OtherException(name: string)

  /** The first component of `_load_buffer_as_json`'s result. */
  datatype Loaded = Document(doc: Json) | ErrorTag(tag: string) | Caught(name: string)

  /** `_load_buffer_as_json(buffer)`: the document and False, or an error
      value and True; the flag is True exactly when decoding failed. */
  function LoadBufferAsJson(buffer: string, loads: string -> DecodeOutcome): (r: (Loaded, bool))
    ensures r.1 <==> !loads(buffer).Decoded?
    ensures !r.1 ==> r.0 == Document(loads(buffer).doc)
    ensures loads(buffer).JsonDecodeError? ==> r.0 == ErrorTag("JSONDecodeError")
    ensures r.0.Document? ==> !r.1
  {
    match loads(buffer)
    case Decoded(doc) => (Document(doc), false)
    case JsonDecodeError => (ErrorTag("JSONDecodeError"), true)
    case OtherException(name) => (Caught(name), true)
  }

  // ---------------------------------------------------------------------
  // print_table

  /** A table handed to `tabulate`. */
  datatype Table = Table(headers: seq<string>, rows: seq<seq<Json>>)

  datatype Printed = Tabulated(table: Table) | DataBufferNotFound

  /** `print_table(data, headers, rows)`: explicit headers and rows win when
      both are non-empty; otherwise a missing `data` gives the error message,
      and a list of records gives the first record's keys as headers and
      each record's own values, in its own key order, as its row. */
  method PrintTable(data: Option<seq<Dict>>, headers: seq<string>, rows: seq<seq<Json>>)
    returns (out: Printed)
    ensures |headers| > 0 && |rows| > 0 ==> out == Tabulated(Table(headers, rows))
    ensures !(|headers| > 0 && |rows| > 0) && data.None? ==> out == DataBufferNotFound
    ensures !(|headers| > 0 && |rows| > 0) && data.Some? ==>
      && out.Tabulated?
      && out.table.headers == (if |data.value| > 0 then KeysOf(data.value[0]) else [])
      && |out.table.rows| == |data.value|
      && forall k :: 0 <= k < |data.value| ==> out.table.rows[k] == ValuesOf(data.value[k])
  {
    if |headers| > 0 && |rows| > 0 {
      return Tabulated(Table(headers, rows));
    }
    if data.None? {
      return DataBufferNotFound;
    }
    var records := data.value;
    var inferredHeaders: seq<string> := [];
    var inferredRows: seq<seq<Json>> := [];
    if |records| > 0 {
      inferredHeaders := KeysOf(records[0]);
    }
    for k := 0 to |records|
      invariant |inferredRows| == k
      invariant forall m :: 0 <= m < k ==> inferredRows[m] == ValuesOf(records[m])
    {
      var d := records[k];
      var keys := KeysOf(d);
      var row: seq<Json> := [];
      for m := 0 to |keys|
        invariant row == ValuesOf(d)[..m]
      {
        DictGetAt(d, m);
        row := row + [DictGet(d, keys[m]).value];
      }
      inferredRows := inferredRows + [row];
    }
    out := Tabulated(Table(inferredHeaders, inferredRows));
  }

  /** Inferred rows line up with the inferred headers exactly for the
      records whose keys, in order, are those of the first record: for them,
      column j holds the value stored under header j. */
  lemma InferredColumnsAligned(records: seq<Dict>, k: nat, j: nat)
    requires k < |records| && j < |records[0]|
    requires KeysOf(records[k]) == KeysOf(records[0])
    ensures |ValuesOf(records[k])| == |KeysOf(records[0])|
    ensures DictGet(records[k], KeysOf(records[0])[j]) == Ok(ValuesOf(records[k])[j])
  {
    assert |records[k]| == |KeysOf(records[k])|;
    assert KeysOf(records[k])[j] == records[k][j].0;
    DictGetAt(records[k], j);
  }

  // ---------------------------------------------------------------------
  // parser_main

  /** A call of a descriptor's `fn_out` with a buffer. */
  datatype Invocation = Invocation(fnOut: Extractor, buffer: string)

  /** How an extractor call ends: it returns, or it raises. */
  datatype Effect = Returned | Raised(exc: Exc)

  /** What `parser_main` does. */
  datatype MainOutcome =
    | Listing                                  // help() shown, no extractor called
    | ReturnedErr                              // `return err`: the read failed
    | Extracted(call: Invocation)              // fn_out called and returned
    | ListingAfter(call: Invocation)           // fn_out raised KeyError; help() shown
    | Propagated(call: Invocation, exc: Exc)   // fn_out raised anything else

  /** `parser_main(command, show)`. `fs` is the snapshot directory and `run`
      the behaviour of the extractors. */
  function ParserMain(command: Option<seq<string>>, show: bool,
                      fs: string -> FsAnswer, run: Invocation -> Effect): (r: MainOutcome)
    ensures show ==> r == Listing
    ensures (command.None? || |command.value| == 0) ==> r == Listing
    ensures r.ReturnedErr? ==> !show && command.Some? && |command.value| > 0
  {
    if show then Listing
    else if command.None? || |command.value| <= 0 then Listing
    else
      var cmd := command.value[0];
      match Lookup(cmd)
      case None => Listing
      case Some(d) =>
        var (buffer, err) := FileReader(d.fileIn, fs);
        if err && !(d.ignoreErr.Some? && d.ignoreErr.value) then ReturnedErr
        else
          var call := Invocation(d.fnOut, buffer);
          match run(call)
          case Returned => Extracted(call)
          case Raised(KeyError) => ListingAfter(call)
          case Raised(e) => Propagated(call, e)
  }

  /** Only the first word of the command list matters. */
  lemma ParserMainUsesFirstWord(command: seq<string>, show: bool,
                                fs: string -> FsAnswer, run: Invocation -> Effect)
    requires |command| > 0
    ensures ParserMain(Some(command), show, fs, run) == ParserMain(Some([command[0]]), show, fs, run)
  {
  }

  /** An unknown command name degrades to the help listing, not a failure. */
  lemma UnknownCommandShowsHelp(name: string, rest: seq<string>, show: bool,
                                fs: string -> FsAnswer, run: Invocation -> Effect)
    requires name !in Commands()
    ensures ParserMain(Some([name] + rest), show, fs, run) == Listing
  {
  }

  /** For a known command: the error flag is returned, without any extractor
      call, exactly when the read failed and the entry does not set
      `ignore_err` to True; otherwise the entry's `fn_out` is called once,
      with the buffer the read returned, and a KeyError it raises turns into
      the help listing. */
  lemma KnownCommandPolicy(name: string, rest: seq<string>,
                           fs: string -> FsAnswer, run: Invocation -> Effect)
    requires name in Commands()
    ensures var d := Lookup(name).value;
            var read := FileReader(d.fileIn, fs);
            var r := ParserMain(Some([name] + rest), false, fs, run);
            var call := Invocation(d.fnOut, read.0);
            && (r == ReturnedErr <==> read.1 && d.ignoreErr != Some(true))
            && (r != ReturnedErr ==>
                 && (run(call) == Returned ==> r == Extracted(call))
                 && (run(call) == Raised(KeyError) ==> r == ListingAfter(call))
                 && (run(call).Raised? && run(call).exc != KeyError ==>
                       r == Propagated(call, run(call).exc)))
  {
    var command := [name] + rest;
    assert command[0] == name;
    var d := Lookup(name).value;
    var (buffer, err) := FileReader(d.fileIn, fs);
    var r := ParserMain(Some(command), false, fs, run);
    if err && !(d.ignoreErr.Some? && d.ignoreErr.value) {
      assert r == ReturnedErr;
    } else {
      assert r == match run(Invocation(d.fnOut, buffer))
                  case Returned => Extracted(Invocation(d.fnOut, buffer))
                  case Raised(KeyError) => ListingAfter(Invocation(d.fnOut, buffer))
                  case Raised(e) => Propagated(Invocation(d.fnOut, buffer), e);
    }
  }

  /** The entries without an input file (etcd-all and the Prometheus
      reports) always reach their extractor, whatever the read of the
      snapshot root reports. */
  lemma SelfLoadingCommandsAlwaysRun(name: string, fs: string -> FsAnswer, run: Invocation -> Effect)
    requires name in Commands() && Lookup(name).value.fileIn == ""
    ensures var r := ParserMain(Some([name]), false, fs, run);
            && (r.Extracted? || r.ListingAfter? || r.Propagated?)
            && r.call == Invocation(Lookup(name).value.fnOut, FileReader("", fs).0)
  {
    KnownCommandPolicy(name, [], fs, run);
    assert [name] + [] == [name];
  }
}
