/** The dashboard card of one task: the icon and its colour, chosen from the
    task's status. */
module TaskCard {
  import opened Domain

  /** `getStatusColor`, a `switch` on the status string. */
  function StatusColor(status: string): (r: string)
    ensures status == "pending" ==> r == "#F1C40F"
    ensures status == "in_progress" ==> r == "#3498DB"
    ensures status == "completed" ==> r == "#2ECC71"
    ensures r == "#95A5A6" <==> !IsTaskStatusName(status)
  {
    match status
    case "pending" => "#F1C40F"
    case "in_progress" => "#3498DB"
    case "completed" => "#2ECC71"
    case _ => "#95A5A6"
  }

  /** `getStatusIcon`: a Material icon name. */
  function StatusIcon(status: string): (r: string)
    ensures status == "pending" ==> r == "schedule"
    ensures status == "in_progress" ==> r == "play-circle-outline"
    ensures status == "completed" ==> r == "check-circle"
    ensures r == "help" <==> !IsTaskStatusName(status)
  {
    match status
    case "pending" => "schedule"
    case "in_progress" => "play-circle-outline"
    case "completed" => "check-circle"
    case _ => "help"
  }

  /** Colour and icon each tell the three statuses apart, and the `default`
      branches are never taken for a typed status. */
  lemma {:induction false} StatusMapsDistinct(a: TaskStatus, b: TaskStatus)
    ensures StatusColor(a.Name()) == StatusColor(b.Name()) ==> a == b
    ensures StatusIcon(a.Name()) == StatusIcon(b.Name()) ==> a == b
    ensures StatusColor(a.Name()) != "#95A5A6" && StatusIcon(a.Name()) != "help"
  {
  }
}
