/**
  * The memory collector: the process's memory use from `dumpsys meminfo`,
  * as kilobyte counts read after fixed labels and reported in megabytes to
  * two decimals. A value that cannot be read is 0.
  */
module MemoryCollector {
  import opened Util
  import opened Text
  import opened Pattern

  function MeminfoCommand(pid: string): string
  {
    "dumpsys meminfo " + pid
  }

  /** `TOTAL\s+(\d+)`. */
  const TotalPattern := [Lit("TOTAL"), Run(Space, 1, false, false), Run(Digit, 1, false, true)]

  /** convertToMB: kilobytes to megabytes to two decimals; no match is 0. */
  function ConvertToMB(kb: Option<nat>): (mb: real)
    ensures kb.None? ==> mb == 0.0
    ensures kb.Some? ==> kb.value as real / 1024.0 - 0.005 < mb <= kb.value as real / 1024.0 + 0.005
    ensures mb >= 0.0
  {
    match kb
    case None => 0.0
    case Some(n) =>
      Round2Within(n as real / 1024.0, 0, Round(n as real / 1024.0 * 100.0) + 1);
      Round2(n as real / 1024.0)
  }

  /** More kilobytes never give fewer megabytes. */
  lemma ConvertToMBMonotone(a: nat, b: nat)
    requires a <= b
    ensures ConvertToMB(Some(a)) <= ConvertToMB(Some(b))
  {
    Round2Monotone(a as real / 1024.0, b as real / 1024.0);
  }

  /** Whole megabytes convert exactly. */
  lemma ConvertWholeMegabytes(m: nat)
    ensures ConvertToMB(Some(1024 * m)) == m as real
  {
    assert (1024 * m) as real / 1024.0 * 100.0 == (100 * m) as real;
    RoundOfInt(100 * m);
  }

  /** The total PSS read from a dump, in megabytes. */
  function TotalPss(result: string): (mb: real)
    ensures IsBlank(result) ==> mb == 0.0
    ensures mb >= 0.0
  {
    if IsBlank(result) then 0.0 else ConvertToMB(FirstNumber(result, TotalPattern))
  }

  /** collectMemoryUsage: the total PSS in megabytes; "" is a missing pid. */
  function MemoryUsage(pid: string, exec: string -> string): (totalPss: real)
    ensures pid == "" || IsBlank(exec(MeminfoCommand(pid))) ==> totalPss == 0.0
    ensures pid != "" ==> totalPss == TotalPss(exec(MeminfoCommand(pid)))
    ensures totalPss >= 0.0
  {
    if pid == "" then 0.0 else TotalPss(exec(MeminfoCommand(pid)))
  }

  /** The total is the number parseInt reads after the first `TOTAL` that
      white space and digits follow, in megabytes; 0 when there is none. */
  lemma TotalIsFirstTotal(result: string)
    requires !IsBlank(result)
    ensures FirstGroup(result, TotalPattern).None? ==> TotalPss(result) == 0.0
    ensures FirstGroup(result, TotalPattern).Some? ==>
              var g := FirstGroup(result, TotalPattern).value;
              IsDigits(g) && ParseInt(g).Some? && ParseInt(g).value >= 0 &&
              TotalPss(result) == ConvertToMB(Some(ParseInt(g).value))
  {
    if FirstNumber(result, TotalPattern).Some? {
      FirstNumberParses(result, TotalPattern);
    }
  }

  /** Output without the word TOTAL gives 0. */
  lemma NoTotalIsZero(result: string)
    requires !Contains(result, "TOTAL")
    ensures TotalPss(result) == 0.0
  {
    if !IsBlank(result) && Search(result, TotalPattern).Some? {
      assert TotalPattern == [Lit("TOTAL")] + TotalPattern[1..];
      LiteralFirst(result, "TOTAL", TotalPattern[1..]);
    }
  }

  /** The seven figures of collectDetailedMemoryUsage, in megabytes. */
  datatype MemoryDetail = MemoryDetail(javaHeap: real, nativeHeap: real, code: real, stack: real,
                                       graphics: real, privateOther: real, system: real)

  const NoDetail := MemoryDetail(0.0, 0.0, 0.0, 0.0, 0.0, 0.0, 0.0)

  /** The labels, in the order of the fields. */
  const DetailLabels := ["Java Heap:", "Native Heap:", "Code:", "Stack:", "Graphics:", "Private Other:", "System:"]

  function DetailFigures(d: MemoryDetail): seq<real>
  {
    [d.javaHeap, d.nativeHeap, d.code, d.stack, d.graphics, d.privateOther, d.system]
  }

  /** One figure: `tag\s*(\d+)` converted to megabytes. */
  function Figure(result: string, tag: string): (mb: real)
    ensures mb >= 0.0
  {
    ConvertToMB(FirstNumber(result, NumberAfter(tag)))
  }

  /** A tag that does not occur gives 0. */
  lemma MissingLabelIsZero(result: string, tag: string)
    requires !Contains(result, tag)
    ensures Figure(result, tag) == 0.0
  {
    if Search(result, NumberAfter(tag)).Some? {
      assert NumberAfter(tag) == [Lit(tag)] + NumberAfter(tag)[1..];
      LiteralFirst(result, tag, NumberAfter(tag)[1..]);
    }
  }

  /** The seven figures, each read by `read` from its own label alone. */
  function DetailFrom(read: string -> real): (d: MemoryDetail)
    ensures forall i :: 0 <= i < 7 ==> DetailFigures(d)[i] == read(DetailLabels[i])
  {
    var tags := DetailLabels;
    MemoryDetail(read(tags[0]), read(tags[1]), read(tags[2]), read(tags[3]), read(tags[4]), read(tags[5]), read(tags[6]))
  }

  /** The figures read from a non-blank output. */
  function DetailOf(result: string): (d: MemoryDetail)
    ensures forall i :: 0 <= i < 7 ==> DetailFigures(d)[i] == Figure(result, DetailLabels[i])
  {
    DetailFrom(tag => Figure(result, tag))
  }

  /** collectDetailedMemoryUsage; "" is a missing pid. */
  function DetailedMemoryUsage(pid: string, exec: string -> string): (d: MemoryDetail)
    ensures pid == "" || IsBlank(exec(MeminfoCommand(pid))) ==> d == NoDetail
    ensures forall i :: 0 <= i < 7 ==> DetailFigures(d)[i] >= 0.0
  {
    if pid == "" then NoDetail
    else
      var result := exec(MeminfoCommand(pid));
      if IsBlank(result) then NoDetail else DetailOf(result)
  }

  /** A figure whose tag is missing is 0 and the others are unaffected. */
  lemma MissingLabelOnlyZeroesItsFigure(pid: string, exec: string -> string, i: nat)
    requires pid != "" && !IsBlank(exec(MeminfoCommand(pid)))
    requires i < 7 && !Contains(exec(MeminfoCommand(pid)), DetailLabels[i])
    ensures DetailFigures(DetailedMemoryUsage(pid, exec))[i] == 0.0
    ensures forall j :: 0 <= j < 7 && j != i ==>
              DetailFigures(DetailedMemoryUsage(pid, exec))[j] == Figure(exec(MeminfoCommand(pid)), DetailLabels[j])
  {
    MissingLabelIsZero(exec(MeminfoCommand(pid)), DetailLabels[i]);
  }
}
