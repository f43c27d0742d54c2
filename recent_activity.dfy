/** The dashboard's recent-activity list: a dot colour per audit action. */
module RecentActivity {
  import Strings
  import Utils

  const GREEN_DOT: string := "bg-green-500"
  const BLUE_DOT: string := "bg-blue-500"
  const YELLOW_DOT: string := "bg-yellow-500"
  const GRAY_DOT: string := "bg-gray-500"

  /** `getActivityColor`: unlike the table badges it has no case for deletions. */
  function ActivityColor(action: string): (r: string)
    ensures r == GREEN_DOT <==> Strings.ToLower(action) == "campaign created"
    ensures r == BLUE_DOT <==> Strings.ToLower(action) in ["campaign updated", "status updated"]
    ensures r == YELLOW_DOT <==> Strings.ToLower(action) == "budget modified"
    ensures r == GRAY_DOT <==> Strings.ToLower(action) !in ["campaign created", "campaign updated", "status updated", "budget modified"]
  {
    match Strings.ToLower(action)
    case "campaign created" => GREEN_DOT
    case "campaign updated" => BLUE_DOT
    case "status updated" => BLUE_DOT
    case "budget modified" => YELLOW_DOT
    case _ => GRAY_DOT
  }

  lemma ActivityCaseInsensitive(s: string)
    ensures ActivityColor(Strings.ToLower(s)) == ActivityColor(s)
  {
    Strings.ToLowerIdempotent(s);
  }

  /**
   * The dot and the table badge agree on every action except a deletion, which the badge
   * shows red and the dot leaves gray.
   */
  lemma DotMatchesBadge(action: string)
    ensures ActivityColor(action) == GREEN_DOT <==> Utils.ActionColor(action) == Utils.GREEN
    ensures ActivityColor(action) == BLUE_DOT <==> Utils.ActionColor(action) == Utils.BLUE
    ensures ActivityColor(action) == YELLOW_DOT <==> Utils.ActionColor(action) == Utils.YELLOW
    ensures ActivityColor(action) == GRAY_DOT <==>
              Utils.ActionColor(action) == Utils.GRAY || Utils.ActionColor(action) == Utils.RED
  {
  }

  /** The deletions the server records show as a gray dot but a red badge. */
  lemma DeletedIsGray()
    ensures ActivityColor("Campaign Deleted") == GRAY_DOT
    ensures Utils.ActionColor("Campaign Deleted") == Utils.RED
  {
    assert Strings.ToLower("Campaign Deleted") == "campaign deleted";
  }
}
