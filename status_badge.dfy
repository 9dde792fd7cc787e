/**
 * The status badge (src/frontend/src/components/StatusBadge.tsx): the label
 * and style for a request status. The switch is on the status's run-time
 * string, so it is modelled on that string, with its `default` branch.
 */
module StatusBadge {
  import opened Backend

  datatype Config = Config(caption: string, className: string)

  const UnknownConfig: Config := Config("Unknown", "bg-muted text-muted-foreground")

  /** The label and style of each status the backend defines. */
  function Known(st: Status): Config {
    match st
    case Pending => Config("Pending", "bg-warning/20 text-warning border-warning/30")
    case Accepted => Config("Accepted", "bg-safety/20 text-safety border-safety/30")
    case Resolved => Config("Resolved", "bg-police/20 text-police border-police/30")
  }

  /** `getStatusConfig`: the configuration of the status named `status`, or the unknown one. */
  function ConfigFor(status: string): (c: Config)
    ensures status == Pending.Name() ==> c == Known(Pending)
    ensures status == Accepted.Name() ==> c == Known(Accepted)
    ensures status == Resolved.Name() ==> c == Known(Resolved)
    ensures (forall st: Status :: status != st.Name()) <==> c == UnknownConfig
  {
    if status == "pending" then
      assert status == Pending.Name();
      Known(Pending)
    else if status == "accepted" then
      assert status == Accepted.Name();
      Known(Accepted)
    else if status == "resolved" then
      assert status == Resolved.Name();
      Known(Resolved)
    else UnknownConfig
  }

  lemma ConfigForKnown(st: Status)
    ensures ConfigFor(st.Name()) == Known(st)
  {
    match st
    case Pending =>
    case Accepted =>
    case Resolved =>
  }

  /** Distinct known configurations, none of them the unknown one. */
  lemma KnownDistinct(a: Status, b: Status)
    ensures Known(a) != UnknownConfig
    ensures a != b ==> Known(a).caption != Known(b).caption && Known(a).className != Known(b).className
  {
    KnownLetters(a);
    KnownLetters(b);
    assert Known(a).caption[0] != UnknownConfig.caption[0];
  }

  /** The letters that tell the configurations apart: the caption's first and the class's fourth. */
  lemma KnownLetters(st: Status)
    ensures var c := Known(st);
            && 0 < |c.caption| && 3 < |c.className|
            && c.caption[0] == (match st case Pending => 'P' case Accepted => 'A' case Resolved => 'R')
            && c.className[3] == (match st case Pending => 'w' case Accepted => 's' case Resolved => 'p')
  {
    match st
    case Pending =>
    case Accepted =>
    case Resolved =>
  }

  /**
   * Distinct statuses get distinct labels and distinct classes, none of
   * them the unknown one.
   */
  lemma ConfigsDistinct(a: Status, b: Status)
    ensures ConfigFor(a.Name()) != UnknownConfig
    ensures a != b ==> ConfigFor(a.Name()).caption != ConfigFor(b.Name()).caption
    ensures a != b ==> ConfigFor(a.Name()).className != ConfigFor(b.Name()).className
  {
    ConfigForKnown(a);
    ConfigForKnown(b);
    KnownDistinct(a, b);
  }

  /** The label is the status name with its first letter capitalised. */
  lemma LabelCapitalisesName(st: Status)
    ensures var caption := ConfigFor(st.Name()).caption;
            |caption| == |st.Name()| && caption[1..] == st.Name()[1..]
            && caption[0] as int == st.Name()[0] as int - 32
  {
    ConfigForKnown(st);
  }
}
