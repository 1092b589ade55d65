/** The classifications `renderTimeDebt` makes before it fills in its template. */
module TimeDebtView {
  import opened Entities

  /** Colour tier of the time-debt gauge. */
  datatype Tier = Success | Warning | Danger

  const SuccessFrom: real := 80.0
  const WarningFrom: real := 60.0

  function ScoreTier(score: real): (t: Tier)
    ensures t == Success <==> score >= SuccessFrom
    ensures t == Warning <==> WarningFrom <= score < SuccessFrom
    ensures t == Danger <==> score < WarningFrom
  {
    if score >= SuccessFrom then Success
    else if score >= WarningFrom then Warning
    else Danger
  }

  /** How good a tier is, Danger lowest. */
  function Rank(t: Tier): nat {
    match t
    case Danger => 0
    case Warning => 1
    case Success => 2
  }

  /** A higher score never lands in a worse tier. */
  lemma TierMonotone(a: real, b: real)
    requires a <= b
    ensures Rank(ScoreTier(a)) <= Rank(ScoreTier(b))
  {
  }

  /** The accent colour suffix of the gauge's filled arc: `--accent-blue`, `--accent-warning`, `--accent-danger`. */
  function GaugeAccent(t: Tier): (a: string)
    ensures t == Success <==> a == "blue"
    ensures t == Warning <==> a == "warning"
    ensures t == Danger <==> a == "danger"
  {
    match t
    case Success => "blue"
    case Warning => "warning"
    case Danger => "danger"
  }

  /** The overdue figure carries the `text-danger` class exactly when some hours are overdue. */
  function OverdueClass(d: TimeDebt): (c: string)
    ensures c == "text-danger" <==> d.totalOverdueHours > 0.0
    ensures c == "" <==> d.totalOverdueHours <= 0.0
  {
    if d.totalOverdueHours > 0.0 then "text-danger" else ""
  }
}
