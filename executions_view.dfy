/** How one execution row is shown in the executions list: its title, icon and duration. */
module ExecutionsView {
  import opened Results
  import opened Schema
  import opened Text

  /** The status as the client receives it. */
  function StatusName(s: ExecutionStatus): string {
    match s
    case PENDING => "PENDING"
    case RUNNING => "RUNNING"
    case SUCCESS => "SUCCESS"
    case FAILED => "FAILED"
  }

  /** The row title: the first character kept, the rest in lower case. */
  function FormatStatus(s: string): (r: string)
    ensures |r| == |s|
    ensures |s| > 0 ==> r[0] == s[0]
    ensures forall i :: 1 <= i < |s| ==> r[i] == LowerChar(s[i])
  {
    if s == [] then [] else [s[0]] + Lower(s[1..])
  }

  /** Formatting a title again leaves it as it is. */
  lemma FormatStatusIdempotent(s: string)
    ensures FormatStatus(FormatStatus(s)) == FormatStatus(s)
  {
    if s != [] {
      var r := FormatStatus(s);
      assert r[1..] == Lower(s[1..]);
      LowerIdempotent(s[1..]);
    }
  }

  /** A title is determined by its first character and the lowered rest. */
  lemma TitleIs(s: string, t: string)
    requires |s| == |t| && |s| > 0 && s[0] == t[0]
    requires forall i :: 1 <= i < |s| ==> LowerChar(s[i]) == t[i]
    ensures FormatStatus(s) == t
  {
  }

  /** The four statuses are titled Pending, Running, Success and Failed. */
  lemma StatusTitles()
    ensures FormatStatus(StatusName(PENDING)) == "Pending"
    ensures FormatStatus(StatusName(RUNNING)) == "Running"
    ensures FormatStatus(StatusName(SUCCESS)) == "Success"
    ensures FormatStatus(StatusName(FAILED)) == "Failed"
  {
    TitleIs("PENDING", "Pending");
    TitleIs("RUNNING", "Running");
    TitleIs("SUCCESS", "Success");
    TitleIs("FAILED", "Failed");
  }

  /** Different statuses get different titles. */
  lemma TitlesAreDistinct(a: ExecutionStatus, b: ExecutionStatus)
    requires a != b
    ensures FormatStatus(StatusName(a)) != FormatStatus(StatusName(b))
  {
    StatusTitles();
  }

  datatype Icon = CheckCircle | XCircle | Spinner | Clock

  /** The row icon: a check for success, a cross for failure, a spinner while running, a clock otherwise. */
  function StatusIcon(s: ExecutionStatus): (r: Icon)
    ensures r == CheckCircle <==> s == SUCCESS
    ensures r == XCircle <==> s == FAILED
    ensures r == Spinner <==> s == RUNNING
    ensures r == Clock <==> s != SUCCESS && s != FAILED && s != RUNNING
  {
    match s
    case SUCCESS => CheckCircle
    case FAILED => XCircle
    case RUNNING => Spinner
    case _ => Clock
  }

  /**
   * The duration in whole seconds, from millisecond timestamps: absent exactly when the
   * execution has not completed, otherwise the elapsed time rounded half up.
   */
  function Duration(startedAt: int, completedAt: Option<int>): (r: Option<int>)
    ensures r.None? <==> completedAt.None?
    ensures r.Some? ==> var d := completedAt.value - startedAt;
                        1000 * r.value - 500 <= d < 1000 * r.value + 500
  {
    match completedAt
    case None => None
    case Some(c) => Some((c - startedAt + 500) / 1000)
  }
}
