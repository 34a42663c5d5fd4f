/**
 * The application list's two status mappings: each status string to the
 * colour of its chip and to its label. Four statuses are known; every other
 * string falls through to a grey chip labelled '未知' ("unknown").
 */
module ApplicationsScreen {

  /** The statuses the mappings name, in workflow order. */
  const KnownStatuses: seq<string> := ["pending", "interview", "accepted", "rejected"]

  const DefaultColor := "#757575"
  const UnknownText := "未知"

  /** The colour of each known status, as a lookup table. */
  const ColorTable: map<string, string> :=
    map["pending" := "#ffa000", "interview" := "#2196f3", "accepted" := "#4caf50", "rejected" := "#f44336"]

  /** The label of each known status, as a lookup table. */
  const TextTable: map<string, string> :=
    map["pending" := "待处理", "interview" := "面试中", "accepted" := "已录用", "rejected" := "已拒绝"]

  /** `getStatusColor` */
  function StatusColor(status: string): (r: string)
    ensures status in ColorTable ==> r == ColorTable[status]
    ensures status !in ColorTable ==> r == DefaultColor
  {
    match status
    case "pending" => "#ffa000"
    case "interview" => "#2196f3"
    case "accepted" => "#4caf50"
    case "rejected" => "#f44336"
    case _ => DefaultColor
  }

  /** `getStatusText` */
  function StatusText(status: string): (r: string)
    ensures status in TextTable ==> r == TextTable[status]
    ensures status !in TextTable ==> r == UnknownText
  {
    match status
    case "pending" => "待处理"
    case "interview" => "面试中"
    case "accepted" => "已录用"
    case "rejected" => "已拒绝"
    case _ => UnknownText
  }

  /** Both tables cover exactly the four known statuses. */
  lemma TablesCoverKnownStatuses(status: string)
    ensures status in ColorTable <==> status in KnownStatuses
    ensures status in TextTable <==> status in KnownStatuses
  {
  }

  /**
   * A chip's colour tells its status apart: the default grey is used for
   * unknown statuses only, and two known statuses never share a colour.
   */
  lemma ColorIdentifiesStatus(a: string, b: string)
    ensures StatusColor(a) == DefaultColor <==> a !in KnownStatuses
    ensures a in KnownStatuses && StatusColor(a) == StatusColor(b) ==> a == b
  {
    TablesCoverKnownStatuses(a);
    TablesCoverKnownStatuses(b);
  }

  /**
   * A chip's label tells its status apart in the same way, so colour and
   * label always name the same status.
   */
  lemma TextIdentifiesStatus(a: string, b: string)
    ensures StatusText(a) == UnknownText <==> a !in KnownStatuses
    ensures a in KnownStatuses && StatusText(a) == StatusText(b) ==> a == b
    ensures StatusText(a) == StatusText(b) <==> StatusColor(a) == StatusColor(b)
  {
    TablesCoverKnownStatuses(a);
    TablesCoverKnownStatuses(b);
  }
}
