/**
 * The priority badge: a fixed table from the four priorities to a label and
 * a colour tone, looked up by the ticket's priority.
 */
module PriorityBadge {
  import opened Wrappers
  import opened Api

  /** Stands for the colour class a badge is drawn with. */
  datatype Tone = CriticalTone | HighTone | MediumTone | LowTone

  datatype BadgeConfig = BadgeConfig(caption: string, tone: Tone)

  /** The configuration table, one entry per priority. */
  function Config(p: Priority): (c: BadgeConfig)
  {
    match p
    case P1 => BadgeConfig("P1 Critical", CriticalTone)
    case P2 => BadgeConfig("P2 High", HighTone)
    case P3 => BadgeConfig("P3 Medium", MediumTone)
    case P4 => BadgeConfig("P4 Low", LowTone)
  }

  /** The text a badge shows: the label of its priority's entry, which
      starts with the priority's own code followed by a space. */
  function Label(p: Priority): (caption: string)
    ensures |caption| > 3 && caption[..2] == PriorityCode(p) && caption[2] == ' '
  {
    Config(p).caption
  }

  /** Reads the priority back from a badge label. */
  function PriorityOfLabel(text: string): (r: Option<Priority>)
    ensures r.Some? ==> Label(r.value) == text
  {
    if text == "P1 Critical" then Some(P1)
    else if text == "P2 High" then Some(P2)
    else if text == "P3 Medium" then Some(P3)
    else if text == "P4 Low" then Some(P4)
    else None
  }

  /** Every priority's label reads back as that priority, so the table is
      total and no two priorities share a label. */
  lemma LabelRoundTrip(p: Priority)
    ensures PriorityOfLabel(Label(p)) == Some(p)
  {
  }

  /** Distinct priorities get distinct labels and distinct tones. */
  lemma ConfigInjective(p: Priority, q: Priority)
    requires p != q
    ensures Label(p) != Label(q)
    ensures Config(p).tone != Config(q).tone
  {
  }

  /** The labels are exactly the four fixed strings. */
  lemma LabelsExactly(text: string)
    ensures (exists p :: Label(p) == text)
        <==> text in {"P1 Critical", "P2 High", "P3 Medium", "P4 Low"}
  {
    if text in {"P1 Critical", "P2 High", "P3 Medium", "P4 Low"} {
      LabelRoundTrip(PriorityOfLabel(text).value);
    }
  }
}
