/** The `parse` sub-command's static command registry (`parser_map`): an
    ordered dict from command name to descriptor, in declaration order. */
module Registry {
  import opened Py

  /** The extractor a descriptor's `fn_out` names. `parser_main` reaches
      every one of them through its `run` parameter; PromStatusTsdb is also
      modelled in module PrometheusOut, which ties the two together. */
  datatype Extractor =
    | EtcdMemberList
    | EtcdEndpointHealth
    | EtcdEndpointStatus
    | EtcdShowAll
    | AlertsSummary
    | AlertsFiring
    | PromStatusTsdb
    | PromStatusRuntimeBuildInfo

  /** One registry value. `ignoreErr` is None when the entry has no
      `ignore_err` key at all. */
  datatype Descriptor = Descriptor(
    command: string,
    helper: string,
    fileIn: string,
    ignoreErr: Option<bool>,
    fnOut: Extractor)

  type Entry = (string, Descriptor)

  const ParserMap: seq<Entry> := [
    ("etcd-member-list",
      Descriptor("etcd-member-list",
        "Parser etcd member list from must-gather etcd_info/member_list.json",
        "etcd_info/member_list.json", None, EtcdMemberList)),
    ("etcd-endpoint-health",
      Descriptor("etcd-endpoint-health",
        "Parser etcd endpoint health from must-gather etcd_info/endpoint_status.json",
        "etcd_info/endpoint_health.json", None, EtcdEndpointHealth)),
    ("etcd-endpoint-status",
      Descriptor("etcd-endpoint-status",
        "Parser etcd endpoint status from must-gather etcd_info/endpoint_status.json",
        "etcd_info/endpoint_status.json", None, EtcdEndpointStatus)),
    ("etcd-all",
      Descriptor("etcd-all",
        "Run all etcd commands available",
        "", Some(true), EtcdShowAll)),
    ("alerts",
      Descriptor("alerts",
        "Parser alerts exported by must-gather monitoring/alerts.json",
        "monitoring/alerts.json", None, AlertsSummary)),
    ("alerts-firing",
      Descriptor("alerts-firing",
        "Parser alerts firing exported by must-gather monitoring/alerts.json",
        "monitoring/alerts.json", None, AlertsFiring)),
    ("prometheus-status-tsdb",
      Descriptor("prometheus-status-tsdb",
        "Parser alerts firing exported by must-gather monitoring/prometheus-k8s-N/status/tsdb.json",
        "", Some(true), PromStatusTsdb)),
    ("prometheus-runtime-build-info",
      Descriptor("prometheus-runtime-build-info",
        "Parser alerts firing exported by must-gather monitoring/prometheus-k8s-N/status/tsdb.json",
        "", Some(true), PromStatusRuntimeBuildInfo))
  ]

  /** `parser_map.keys()`, in order. */
  function Commands(): (ks: seq<string>)
    ensures |ks| == |ParserMap|
    ensures forall i :: 0 <= i < |ParserMap| ==> ks[i] == ParserMap[i].0
  {
    seq(|ParserMap|, i requires 0 <= i < |ParserMap| => ParserMap[i].0)
  }

  predicate UniqueKeys(entries: seq<Entry>)
  {
    forall i, j :: 0 <= i < j < |entries| ==> entries[i].0 != entries[j].0
  }

  /** First entry whose key is `name`. */
  function Find(entries: seq<Entry>, name: string): (r: Option<Descriptor>)
    ensures r.Some? <==> exists i :: 0 <= i < |entries| && entries[i].0 == name
    ensures r.Some? ==> (name, r.value) in entries
  {
    if |entries| == 0 then None
    else if entries[0].0 == name then Some(entries[0].1)
    else
      var r := Find(entries[1..], name);
      assert forall i :: 0 < i < |entries| ==> entries[i] == entries[1..][i - 1];
      r
  }

  /** With unique keys, each key finds its own entry. */
  lemma {:induction false} FindAt(entries: seq<Entry>, i: nat)
    requires UniqueKeys(entries) && i < |entries|
    ensures Find(entries, entries[i].0) == Some(entries[i].1)
  {
    if i > 0 {
      assert entries[0].0 != entries[i].0;
      assert entries[1..][i - 1] == entries[i];
      FindAt(entries[1..], i - 1);
    }
  }

  /** `parser_map[name]`, None for the KeyError. */
  function Lookup(name: string): (r: Option<Descriptor>)
    ensures r.Some? <==> name in Commands()
    ensures r.Some? ==> r.value.command == name
    ensures r.Some? && r.value.fileIn == "" ==> r.value.ignoreErr == Some(true)
  {
    RegistryWellFormed();
    Find(ParserMap, name)
  }

  /** The registry's own invariants: keys are unique, every descriptor's
      `command` is its key, and an entry without an input file tolerates
      read errors. */
  lemma RegistryWellFormed()
    ensures UniqueKeys(ParserMap)
    ensures forall i :: 0 <= i < |ParserMap| ==> ParserMap[i].1.command == ParserMap[i].0
    ensures forall i :: 0 <= i < |ParserMap| && ParserMap[i].1.fileIn == "" ==>
      ParserMap[i].1.ignoreErr == Some(true)
  {
  }

  /** Iterating the keys and subscripting finds each entry in turn. */
  lemma LookupAt(i: nat)
    requires i < |ParserMap|
    ensures Lookup(ParserMap[i].0) == Some(ParserMap[i].1)
  {
    RegistryWellFormed();
    FindAt(ParserMap, i);
  }

  /** `descriptor[name]` for the string-valued keys a descriptor has; None
      for any other key. */
  function Field(d: Descriptor, name: string): (value: Option<string>)
  {
    if name == "command" then Some(d.command)
    else if name == "helper" then Some(d.helper)
    else if name == "file_in" then Some(d.fileIn)
    else None
  }
}
