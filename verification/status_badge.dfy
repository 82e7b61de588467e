/**
 * The status badge (frontend/src/components/AppointmentStatusBadge.jsx): a
 * total mapping from an appointment status to a label and a colour pair.
 */
module StatusBadge {
  import opened Text

  datatype Colour = Yellow | Green | Blue | Red | Gray

  /** The badge: its text and the colour of its background and text classes
      (`bg-<colour>-100`, `text-<colour>-800`, always the same colour). */
  datatype Badge = Badge(text: string, colour: Colour)

  function BadgeFor(status: string): (b: Badge)
    ensures status == "pending" ==> b == Badge("Pending", Yellow)
    ensures status == "confirmed" ==> b == Badge("Confirmed", Green)
    ensures status == "completed" ==> b == Badge("Completed", Blue)
    ensures status == "cancelled" ==> b == Badge("Cancelled", Red)
    ensures b.colour == Gray <==> status !in {"pending", "confirmed", "completed", "cancelled"}
    ensures b.colour == Gray ==> b.text == status
  {
    match status
    case "pending" => Badge("Pending", Yellow)
    case "confirmed" => Badge("Confirmed", Green)
    case "completed" => Badge("Completed", Blue)
    case "cancelled" => Badge("Cancelled", Red)
    case _ => Badge(status, Gray)
  }

  /** The badge text is the status with its first letter upper-cased for the
      four known statuses, and the raw status otherwise. */
  lemma BadgeTextIsCapitalized(status: string)
    ensures BadgeFor(status).colour != Gray ==> BadgeFor(status).text == Capitalize(status)
    ensures BadgeFor(status).colour == Gray ==> BadgeFor(status).text == status
  {
    if BadgeFor(status).colour != Gray {
      assert Capitalize(status) == [UpperChar(status[0])] + status[1..];
    }
  }
}
