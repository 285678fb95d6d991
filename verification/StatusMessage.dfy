/** The status message: printed by the node, parsed by the orchestrator. */
module StatusMessage {
  import opened Text

  // ---- The printer ----

  datatype FunctionReport = FunctionReport(
    name: string, enabled: bool, counter: nat, missed: nat, cpu: nat, ram: nat, rom: nat, size: nat, inputs: string)

  datatype NodeReport = NodeReport(
    name: string, cores: nat, speed: nat, ram: nat, rom: nat, links: string, runtimes: string, busy: nat,
    data: string, functions: seq<FunctionReport>)

  function Field(key: string, value: string): string { key + ['='] + value }

  function RowFields(f: FunctionReport): seq<string> {
    [f.name, if f.enabled then "1" else "0", Digits(f.counter), Digits(f.missed), Digits(f.cpu), Digits(f.ram),
     Digits(f.rom), Digits(f.size), f.inputs]
  }

  function RowText(f: FunctionReport): string { Join(RowFields(f), ':') }

  /** The keys of the function map begin with the slash that separates the rows. */
  function FunctionsText(fs: seq<FunctionReport>): string {
    if fs == [] then "" else ['/'] + RowText(fs[0]) + FunctionsText(fs[1..])
  }

  function Terminated(xs: seq<string>, c: char): string {
    if xs == [] then "" else xs[0] + [c] + Terminated(xs[1..], c)
  }

  function HeadFields(r: NodeReport): seq<string> {
    [Field("name", ['/'] + r.name), Field("processor_core", Digits(r.cores)), Field("processor_type", Digits(r.speed)),
     Field("RAM", Digits(r.ram)), Field("ROM", Digits(r.rom)), Field("links", r.links), Field("runtimes", r.runtimes),
     Field("node_busy_counter", Digits(r.busy)), Field("data", r.data)]
  }

  function StatusText(r: NodeReport): string {
    Terminated(HeadFields(r), ';') + Field("functions", FunctionsText(r.functions))
  }

  lemma {:induction false} TerminatedAppend(xs: seq<string>, x: string, c: char)
    ensures Terminated(xs + [x], c) == Terminated(xs, c) + x + [c]
  {
    if xs == [] {
      assert Terminated([x], c) == x + [c] + Terminated([], c);
      assert [] + [x] == [x];
    } else {
      TerminatedAppend(xs[1..], x, c);
      assert (xs + [x])[1..] == xs[1..] + [x];
    }
  }

  lemma {:induction false} FunctionsTextAppend(fs: seq<FunctionReport>, f: FunctionReport)
    ensures FunctionsText(fs + [f]) == FunctionsText(fs) + ['/'] + RowText(f)
  {
    if fs == [] {
      assert fs + [f] == [f] && FunctionsText([f][1..]) == "";
    } else {
      FunctionsTextAppend(fs[1..], f);
      assert (fs + [f])[1..] == fs[1..] + [f];
    }
  }

  lemma NothingStreamed(r: NodeReport)
    ensures Terminated(HeadFields(r)[..0], ';') == ""
  {
  }

  class NdnOrchestrationComputeNodeApp {
    const report: NodeReport  // everything but the busy counter
    var busyCounter: nat

    constructor (report: NodeReport)
      ensures this.report == report && busyCounter == report.busy
    {
      this.report, busyCounter := report, report.busy;
    }

    /** Printing resets the busy counter; a bootstrap request resets it beforehand as well. */
    method StatusFetchHandler(isBootstrap: bool) returns (payload: string)
      modifies this
      ensures payload == StatusText(report.(busy := if isBootstrap then 0 else old(busyCounter)))
      ensures busyCounter == 0
    {
      hide Terminated, FunctionsText, Digits, Join;
      if isBootstrap { busyCounter := 0; }
      ghost var r := report.(busy := busyCounter);
      var ss := "";
      NothingStreamed(r);
      ss := Stream(ss, r, 0, "name", ['/'] + report.name);
      ss := Stream(ss, r, 1, "processor_core", Digits(report.cores));
      ss := Stream(ss, r, 2, "processor_type", Digits(report.speed));
      ss := Stream(ss, r, 3, "RAM", Digits(report.ram));
      ss := Stream(ss, r, 4, "ROM", Digits(report.rom));
      ss := Stream(ss, r, 5, "links", report.links);
      ss := Stream(ss, r, 6, "runtimes", report.runtimes);
      ss := Stream(ss, r, 7, "node_busy_counter", Digits(busyCounter));
      ss := Stream(ss, r, 8, "data", report.data);
      assert HeadFields(r)[..9] == HeadFields(r);
      var rows := PrintFunctions();
      payload := ss + ("functions" + ['='] + rows);
      busyCounter := 0;
    }

    method PrintFunctions() returns (text: string)
      ensures text == FunctionsText(report.functions)
    {
      text := "";
      for i := 0 to |report.functions|
        invariant text == FunctionsText(report.functions[..i])
      {
        var f := report.functions[i];
        FunctionsTextAppend(report.functions[..i], f);
        assert report.functions[..i + 1] == report.functions[..i] + [f];
        text := text + ['/'] + Join([f.name, if f.enabled then "1" else "0", Digits(f.counter), Digits(f.missed),
          Digits(f.cpu), Digits(f.ram), Digits(f.rom), Digits(f.size), f.inputs], ':');
      }
      assert report.functions[..|report.functions|] == report.functions;
    }

    /** Streams the k-th field and its terminator. */
    static method Stream(ss: string, ghost r: NodeReport, ghost k: nat, key: string, value: string) returns (s: string)
      requires k < 9 && ss == Terminated(HeadFields(r)[..k], ';') && HeadFields(r)[k] == Field(key, value)
      ensures s == Terminated(HeadFields(r)[..k + 1], ';')
    {
      TerminatedAppend(HeadFields(r)[..k], HeadFields(r)[k], ';');
      assert HeadFields(r)[..k + 1] == HeadFields(r)[..k] + [HeadFields(r)[k]];
      s := ss + (key + ['='] + value) + [';'];
    }
  }
}
