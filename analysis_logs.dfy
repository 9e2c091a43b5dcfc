/** The per-size analysis logs shared by the sweep driver and the plotting
    scripts: a log for queue size `n` is named `pq_analysis_<n>.txt` inside
    the directory `zhou_2020_hwpq.logs`. */
module AnalysisLogs {
  import opened PyStr
  import opened PyNum

  const LogPrefix := "pq_analysis_"
  const LogSuffix := ".txt"

  /** The file name of the log for queue size `size`. */
  function LogName(size: nat): string
  {
    LogPrefix + NatToString(size) + LogSuffix
  }

  /** The name filter used both when logs are erased and when they are
      plotted: the `pq_analysis_` prefix and the `.txt` suffix. */
  predicate IsAnalysisLog(name: string)
  {
    StartsWith(name, LogPrefix) && EndsWith(name, LogSuffix)
  }

  /** Every log the driver writes passes the filter. */
  lemma LogNameIsAnalysisLog(size: nat)
    ensures IsAnalysisLog(LogName(size))
  {
    var name := LogName(size);
    assert name[..|LogPrefix|] == LogPrefix;
    assert name[|name| - |LogSuffix|..] == LogSuffix;
  }

  /** Distinct sizes get distinct logs. */
  lemma LogNameInjective(a: nat, b: nat)
    requires LogName(a) == LogName(b)
    ensures a == b
  {
    var sa, sb := NatToString(a), NatToString(b);
    assert |sa| == |sb|;
    assert sa == LogName(a)[|LogPrefix|..|LogPrefix| + |sa|];
    assert sb == LogName(b)[|LogPrefix|..|LogPrefix| + |sb|];
    NatToStringValue(a);
    NatToStringValue(b);
  }
}
