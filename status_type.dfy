/**
 * The fixed set of reply statuses: each has an enum name, a display name,
 * an emoji and a default reply message. CUSTOM has no built-in message.
 */
module StatusTypes {
  import opened Wrappers

  datatype StatusType = Lunch | Meeting | Driving | Busy | Custom

  /** The statuses in declaration order, as `StatusType.values()` lists them. */
  const AllStatuses: seq<StatusType> := [Lunch, Meeting, Driving, Busy, Custom]

  /** The enum constant's `name`, which is what the settings store keeps. */
  function Name(s: StatusType): string {
    match s
    case Lunch => "LUNCH"
    case Meeting => "MEETING"
    case Driving => "DRIVING"
    case Busy => "BUSY"
    case Custom => "CUSTOM"
  }

  function DisplayName(s: StatusType): string {
    match s
    case Lunch => "At Lunch"
    case Meeting => "In Meeting"
    case Driving => "Driving"
    case Busy => "Busy"
    case Custom => "Custom"
  }

  /** The emoji exactly as code points; two of them carry the emoji variation selector U+FE0F. */
  function Emoji(s: StatusType): string {
    match s
    case Lunch => "\U{1F37D}\U{FE0F}"
    case Meeting => "\U{1F4CB}"
    case Driving => "\U{1F697}"
    case Busy => "\U{1F515}"
    case Custom => "\U{270D}\U{FE0F}"
  }

  const LUNCH_MESSAGE: string := "Hey! I'm at lunch right now. Will call you back shortly."
  const MEETING_MESSAGE: string :=
    "I'm currently in a meeting and can't take calls. I'll get back to you as soon as I'm free."
  const DRIVING_MESSAGE: string := "I'm driving right now and can't answer. I'll call you back when I reach safely."
  const BUSY_MESSAGE: string := "I'm a bit busy at the moment. Will return your call soon!"

  function DefaultMessage(s: StatusType): string {
    match s
    case Lunch => LUNCH_MESSAGE
    case Meeting => MEETING_MESSAGE
    case Driving => DRIVING_MESSAGE
    case Busy => BUSY_MESSAGE
    case Custom => ""
  }

  /** `getFullDisplayName()`: the emoji, one space, then the display name. */
  function FullDisplayName(s: StatusType): (r: string)
    ensures |r| == |Emoji(s)| + 1 + |DisplayName(s)|
    ensures r[..|Emoji(s)|] == Emoji(s)
    ensures r[|Emoji(s)|] == ' '
    ensures r[|Emoji(s)| + 1..] == DisplayName(s)
    ensures forall i :: 0 <= i < |Emoji(s)| ==> r[i] != ' '
  {
    Emoji(s) + " " + DisplayName(s)
  }

  /** `StatusType.valueOf(name)`: the status with that exact name; `None` where Kotlin throws. */
  function ValueOf(name: string): (r: Option<StatusType>)
    ensures forall s :: r == Some(s) <==> Name(s) == name
  {
    if name == "LUNCH" then Some(Lunch)
    else if name == "MEETING" then Some(Meeting)
    else if name == "DRIVING" then Some(Driving)
    else if name == "BUSY" then Some(Busy)
    else if name == "CUSTOM" then Some(Custom)
    else None
  }

  /** There are exactly five statuses, each listed once. */
  lemma ExactlyFiveStatuses()
    ensures |AllStatuses| == 5
    ensures forall s :: s in AllStatuses
    ensures forall i, j :: 0 <= i < j < |AllStatuses| ==> AllStatuses[i] != AllStatuses[j]
  {
    forall s: StatusType ensures s in AllStatuses {
      match s
      case Lunch => assert AllStatuses[0] == s;
      case Meeting => assert AllStatuses[1] == s;
      case Driving => assert AllStatuses[2] == s;
      case Busy => assert AllStatuses[3] == s;
      case Custom => assert AllStatuses[4] == s;
    }
  }

  /** Names are distinct, so name-to-status lookup inverts `Name`. */
  lemma NameInjective(s: StatusType, t: StatusType)
    ensures Name(s) == Name(t) ==> s == t
  {
  }

  lemma ValueOfName(s: StatusType)
    ensures ValueOf(Name(s)) == Some(s)
  {
  }

  /** Only CUSTOM has an empty default message. */
  lemma DefaultMessageEmptyOnlyForCustom(s: StatusType)
    ensures DefaultMessage(s) == "" <==> s == Custom
  {
  }

  /** Full display names are pairwise distinct. */
  lemma FullDisplayNameInjective(s: StatusType, t: StatusType)
    ensures FullDisplayName(s) == FullDisplayName(t) ==> s == t
  {
  }
}
