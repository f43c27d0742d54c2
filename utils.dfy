/** The badge colour helpers shared by the tables: a `switch` on the lower-cased text. */
module Utils {
  import Strings

  const GREEN: string := "bg-green-100 text-green-800"
  const YELLOW: string := "bg-yellow-100 text-yellow-800"
  const BLUE: string := "bg-blue-100 text-blue-800"
  const GRAY: string := "bg-gray-100 text-gray-800"
  const RED: string := "bg-red-100 text-red-800"

  /** `getStatusColor`; `completed` and every unknown status share the gray default. */
  function StatusColor(status: string): (r: string)
    ensures r == GREEN <==> Strings.ToLower(status) == "active"
    ensures r == YELLOW <==> Strings.ToLower(status) == "paused"
    ensures r == BLUE <==> Strings.ToLower(status) == "draft"
    ensures r == GRAY <==> Strings.ToLower(status) !in ["active", "paused", "draft"]
  {
    match Strings.ToLower(status)
    case "active" => GREEN
    case "paused" => YELLOW
    case "draft" => BLUE
    case "completed" => GRAY
    case _ => GRAY
  }

  const KNOWN_ACTIONS: seq<string> :=
    ["campaign created", "campaign updated", "status updated", "budget modified", "campaign deleted"]

  /** `getActionColor`; both kinds of update are blue. */
  function ActionColor(action: string): (r: string)
    ensures r == GREEN <==> Strings.ToLower(action) == "campaign created"
    ensures r == BLUE <==> Strings.ToLower(action) in ["campaign updated", "status updated"]
    ensures r == YELLOW <==> Strings.ToLower(action) == "budget modified"
    ensures r == RED <==> Strings.ToLower(action) == "campaign deleted"
    ensures r == GRAY <==> Strings.ToLower(action) !in KNOWN_ACTIONS
  {
    match Strings.ToLower(action)
    case "campaign created" => GREEN
    case "campaign updated" => BLUE
    case "status updated" => BLUE
    case "budget modified" => YELLOW
    case "campaign deleted" => RED
    case _ => GRAY
  }

  /** Both lookups ignore case: lower-casing the argument first changes nothing. */
  lemma CaseInsensitive(s: string)
    ensures StatusColor(Strings.ToLower(s)) == StatusColor(s)
    ensures ActionColor(Strings.ToLower(s)) == ActionColor(s)
  {
    Strings.ToLowerIdempotent(s);
  }
}
