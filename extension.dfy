/**
 * The panel indicator of the battery charge-limit extension: a two-state
 * icon, the fixed command lines it runs through `sudo framework_tool`, and
 * the way each command's completion updates the icon.
 *
 * Spawning the command and waiting for it are outside the model: every
 * operation that runs a command receives the command's `Outcome` as a
 * parameter and returns the argument vector it would spawn.
 */
module Extension {
  import opened Wrappers
  import opened Decimal
  import opened OutputParser

  const FullIconName: string := "battery-full-symbolic"
  const GoodIconName: string := "battery-good-symbolic"

  /** The limit the toggle requests when the icon shows a full battery. */
  const LimitedPercent: nat := 60
  /** The limit the toggle requests otherwise, and the value shown as full. */
  const StandardPercent: nat := 100

  /** The indicator's state: which of the two icon names is displayed. */
  datatype Icon = Full | Good {

    function Name(): string {
      match this
      case Full => FullIconName
      case Good => GoodIconName
    }

    /** `_toggleIcon`: the full icon becomes good, every other icon becomes full. */
    function Toggled(): (r: Icon)
      ensures r != this
      ensures r.Name() != Name()
    {
      if Name() == FullIconName then Good else Full
    }

    /**
     * `_toggleChargeLimit`: the limit to request from this icon. The icon
     * that limit is displayed as is the other icon.
     */
    function LimitToRequest(): (limit: nat)
      ensures limit == LimitedPercent || limit == StandardPercent
      ensures IconForMaximum(limit) == Toggled()
    {
      if Name() == FullIconName then LimitedPercent else StandardPercent
    }
  }

  /** The icon displayed for a reported maximum charge: full for 100, good otherwise. */
  function IconForMaximum(percent: nat): (icon: Icon)
    ensures icon.Name() == FullIconName <==> percent == StandardPercent
  {
    if percent == StandardPercent then Full else Good
  }

  /** Toggling twice gives back the icon. */
  lemma ToggleTwice(icon: Icon)
    ensures icon.Toggled().Toggled() == icon
  {
  }

  /** The two icons are told apart by their names. */
  lemma NamesDistinct(a: Icon, b: Icon)
    ensures a.Name() == b.Name() <==> a == b
  {
  }

  // ---------------------------------------------------------------------
  // Command lines

  /** The query command: the charge-limit option with no value. */
  function QueryArgv(): (argv: seq<string>)
    ensures |argv| == 5 && argv[0] == "sudo" && argv[1] == "framework_tool"
    ensures forall i :: 0 <= i < |argv| ==> !Canonical(argv[i])
  {
    ["sudo", "framework_tool", "--charge-limit", "--driver", "portio"]
  }

  /**
   * The set command: the query command with the decimal text of `limit`
   * inserted as the value of `--charge-limit`; that text reads back as `limit`.
   */
  function SetLimitArgv(limit: nat): (argv: seq<string>)
    ensures argv == QueryArgv()[..3] + [NatToDecimal(limit)] + QueryArgv()[3..]
    ensures Canonical(argv[3]) && DecimalValue(argv[3]) == limit
  {
    DecimalOfNatToDecimal(limit);
    ["sudo", "framework_tool", "--charge-limit", NatToDecimal(limit), "--driver", "portio"]
  }

  /** The two limits the toggle can request are written "60" and "100". */
  lemma PresetArguments()
    ensures SetLimitArgv(LimitedPercent)[3] == "60"
    ensures SetLimitArgv(StandardPercent)[3] == "100"
  {
  }

  // ---------------------------------------------------------------------
  // Notifications

  /** A desktop notification (`Main.notify(title, body)`). */
  datatype Notification = Notification(title: string, body: string)

  const NotifyTitle: string := "Charging Limit Set"
  const NotifyPrefix: string := "The charging limit is now set to "

  /**
   * The confirmation shown after a limit was set: the body is the prefix,
   * the limit's decimal text, and '%'; that text reads back as the limit.
   */
  function LimitNotification(limit: nat): (n: Notification)
    ensures n.title == NotifyTitle
    ensures |NotifyPrefix| < |n.body| && n.body[..|NotifyPrefix|] == NotifyPrefix && n.body[|n.body| - 1] == '%'
    ensures Canonical(n.body[|NotifyPrefix|..|n.body| - 1])
    ensures DecimalValue(n.body[|NotifyPrefix|..|n.body| - 1]) == limit
  {
    var digits := NatToDecimal(limit);
    var body := NotifyPrefix + digits + "%";
    assert body[|NotifyPrefix|..|body| - 1] == digits;
    DecimalOfNatToDecimal(limit);
    Notification(NotifyTitle, body)
  }

  // ---------------------------------------------------------------------
  // Command outcomes

  /**
   * What a spawned command produced. `Completed` carries the `ok` flag and
   * the two streams of `communicate_utf8_finish` and the exit status of
   * `get_successful`; `Raised` stands for an exception thrown while
   * spawning or finishing, which the source only logs.
   */
  datatype Outcome =
    | Completed(ok: bool, successful: bool, stdout: string, stderr: string)
    | Raised

  /** The set command counts as applied when it finished and exited successfully. */
  predicate SetSucceeded(o: Outcome) {
    o.Completed? && o.ok && o.successful
  }

  /** The maximum the query command reports, if it finished and its output matches. */
  function QueryReport(o: Outcome): (r: Option<nat>)
    ensures !(o.Completed? && o.ok) ==> r.None?
    ensures o.Completed? && o.ok ==> r == ParseMaximum(o.stdout)
    ensures o.Completed? && o.ok ==> (r.None? <==> forall i: nat, k: nat :: !IsMatch(o.stdout, i, k))
  {
    if o.Completed? && o.ok then ParseMaximum(o.stdout) else None
  }

  /** The icon after a set command completes. */
  function AfterSet(icon: Icon, o: Outcome): (r: Icon)
    ensures r == icon <==> !SetSucceeded(o)
  {
    if SetSucceeded(o) then icon.Toggled() else icon
  }

  /** The icon after the query command completes. */
  function AfterQuery(icon: Icon, o: Outcome): (r: Icon)
    ensures QueryReport(o).None? ==> r == icon
    ensures QueryReport(o).Some? ==> (r.Name() == FullIconName <==> QueryReport(o).value == StandardPercent)
  {
    match QueryReport(o)
    case Some(percent) => IconForMaximum(percent)
    case None => icon
  }

  /**
   * A query whose output starts with "Maximum N%" shows the icon for N,
   * whatever the exit status and the error stream say, as long as it finished.
   */
  lemma {:induction false} QueryShowsReportedLimit(icon: Icon, n: nat, rest: string, successful: bool, stderr: string)
    ensures AfterQuery(icon, Completed(true, successful, Marker + NatToDecimal(n) + "%" + rest, stderr)) == IconForMaximum(n)
  {
    ParseToolReport(n, rest);
  }

  /**
   * A finished query shows the icon for the value of the leftmost
   * "Maximum N%" anywhere in its output, whatever precedes it.
   */
  lemma QueryShowsLeftmostReport(icon: Icon, s: string, i: nat, k: nat, successful: bool, stderr: string)
    requires IsLeftmostMatch(s, i, k)
    ensures AfterQuery(icon, Completed(true, successful, s, stderr)) == IconForMaximum(DecimalValue(Group(s, i, k)))
  {
  }

  /** A finished query whose output holds no "Maximum N%" leaves the icon unchanged. */
  lemma QueryWithoutReportKeepsIcon(icon: Icon, s: string, successful: bool, stderr: string)
    requires forall i: nat, k: nat :: !IsMatch(s, i, k)
    ensures AfterQuery(icon, Completed(true, successful, s, stderr)) == icon
  {
  }

  /** "Maximum 100%" shows the full icon. */
  lemma {:induction false} QueryStandardScenario(icon: Icon, rest: string)
    ensures AfterQuery(icon, Completed(true, true, "Maximum 100%" + rest, "")) == Full
  {
    var d := NatToDecimal(StandardPercent);
    assert d == "100" by { PresetArguments(); }
    assert "Maximum 100%" + rest == Marker + d + "%" + rest;
    QueryShowsReportedLimit(icon, StandardPercent, rest, true, "");
  }

  /** "Maximum 0100%" is read as 100 and shows the full icon. */
  lemma {:induction false} QueryZeroPaddedScenario(icon: Icon, rest: string)
    ensures AfterQuery(icon, Completed(true, true, "Maximum 0100%" + rest, "")) == Full
  {
    PresetArguments();
    assert "Maximum 0100%" + rest == Marker + "0" + NatToDecimal(StandardPercent) + "%" + rest;
    ParseZeroPadded("0", StandardPercent, rest);
  }

  /** "Maximum 60%" shows the good icon. */
  lemma {:induction false} QueryLimitedScenario(icon: Icon, rest: string)
    ensures AfterQuery(icon, Completed(true, true, "Maximum 60%" + rest, "")) == Good
  {
    var d := NatToDecimal(LimitedPercent);
    assert d == "60" by { PresetArguments(); }
    assert "Maximum 60%" + rest == Marker + d + "%" + rest;
    QueryShowsReportedLimit(icon, LimitedPercent, rest, true, "");
  }

  // ---------------------------------------------------------------------
  // Toggles completed one after another

  /**
   * The icon agrees with the last limit known to be in force: full exactly
   * when that limit is 100. Nothing is claimed before any limit is known.
   */
  predicate Consistent(icon: Icon, applied: Option<nat>) {
    applied.Some? ==> icon == IconForMaximum(applied.value)
  }

  /** The icon after a series of toggles, each completing before the next starts. */
  function AfterToggles(icon: Icon, outcomes: seq<Outcome>): Icon
    decreases |outcomes|
  {
    if outcomes == [] then icon
    else AfterToggles(AfterSet(icon, outcomes[0]), outcomes[1..])
  }

  /** The last limit in force after the same series: each success applies its request. */
  function LastApplied(icon: Icon, applied: Option<nat>, outcomes: seq<Outcome>): Option<nat>
    decreases |outcomes|
  {
    if outcomes == [] then applied
    else
      var next := if SetSucceeded(outcomes[0]) then Some(icon.LimitToRequest()) else applied;
      LastApplied(AfterSet(icon, outcomes[0]), next, outcomes[1..])
  }

  function SuccessCount(outcomes: seq<Outcome>): nat
    decreases |outcomes|
  {
    if outcomes == [] then 0
    else (if SetSucceeded(outcomes[0]) then 1 else 0) + SuccessCount(outcomes[1..])
  }

  /** Every toggle keeps the icon consistent with the limit last applied. */
  lemma {:induction false} TogglesKeepConsistency(icon: Icon, applied: Option<nat>, outcomes: seq<Outcome>)
    requires Consistent(icon, applied)
    ensures Consistent(AfterToggles(icon, outcomes), LastApplied(icon, applied, outcomes))
    decreases |outcomes|
  {
    if outcomes != [] {
      var next := if SetSucceeded(outcomes[0]) then Some(icon.LimitToRequest()) else applied;
      TogglesKeepConsistency(AfterSet(icon, outcomes[0]), next, outcomes[1..]);
    }
  }

  /**
   * After at least one successful toggle the icon is consistent with the
   * limit applied last, whatever the icon showed at the start.
   */
  lemma {:induction false} SuccessfulToggleEstablishesConsistency(icon: Icon, applied: Option<nat>, outcomes: seq<Outcome>)
    requires SuccessCount(outcomes) > 0
    ensures LastApplied(icon, applied, outcomes).Some?
    ensures Consistent(AfterToggles(icon, outcomes), LastApplied(icon, applied, outcomes))
    decreases |outcomes|
  {
    var next := if SetSucceeded(outcomes[0]) then Some(icon.LimitToRequest()) else applied;
    if SetSucceeded(outcomes[0]) {
      TogglesKeepConsistency(AfterSet(icon, outcomes[0]), next, outcomes[1..]);
      LastAppliedKeepsSome(AfterSet(icon, outcomes[0]), next, outcomes[1..]);
    } else {
      SuccessfulToggleEstablishesConsistency(AfterSet(icon, outcomes[0]), next, outcomes[1..]);
    }
  }

  /** Once a limit is known, later toggles never forget it. */
  lemma {:induction false} LastAppliedKeepsSome(icon: Icon, applied: Option<nat>, outcomes: seq<Outcome>)
    requires applied.Some?
    ensures LastApplied(icon, applied, outcomes).Some?
    decreases |outcomes|
  {
    if outcomes != [] {
      var next := if SetSucceeded(outcomes[0]) then Some(icon.LimitToRequest()) else applied;
      LastAppliedKeepsSome(AfterSet(icon, outcomes[0]), next, outcomes[1..]);
    }
  }

  /** The icon flips once per successful toggle and never otherwise. */
  lemma {:induction false} TogglesFlipPerSuccess(icon: Icon, outcomes: seq<Outcome>)
    ensures AfterToggles(icon, outcomes) == if SuccessCount(outcomes) % 2 == 0 then icon else icon.Toggled()
    decreases |outcomes|
  {
    if outcomes != [] {
      TogglesFlipPerSuccess(AfterSet(icon, outcomes[0]), outcomes[1..]);
    }
  }

  // ---------------------------------------------------------------------
  // The indicator object

  class Indicator {
    /** The displayed icon name, `this._icon.icon_name`. */
    var icon: Icon
    /** The last charge limit known to be in force: reported by the query or set by a toggle. */
    ghost var applied: Option<nat>

    ghost predicate Valid()
      reads this
    {
      Consistent(icon, applied)
    }

    /** `_init`: the icon starts full, before any command has completed. */
    constructor ()
      ensures icon == Full && icon.Name() == FullIconName
      ensures applied == None && Valid()
    {
      icon := Full;
      applied := None;
    }

    /** `_toggleIcon`. */
    method ToggleIcon()
      modifies this`icon
      ensures icon == old(icon).Toggled()
    {
      if icon.Name() == FullIconName {
        icon := Good;
      } else {
        icon := Full;
      }
    }

    /**
     * `_runCommand` with the completion handler run on `outcome`: the icon
     * flips and a notification naming the limit is produced only when the
     * command finished and exited successfully; the error stream plays no part.
     */
    method RunCommand(chargeLimit: nat, outcome: Outcome) returns (argv: seq<string>, note: Option<Notification>)
      modifies this
      ensures argv == SetLimitArgv(chargeLimit)
      ensures icon == AfterSet(old(icon), outcome)
      ensures note == if SetSucceeded(outcome) then Some(LimitNotification(chargeLimit)) else None
      ensures applied == if SetSucceeded(outcome) then Some(chargeLimit) else old(applied)
    {
      argv := SetLimitArgv(chargeLimit);
      note := None;
      match outcome
      case Raised =>
      case Completed(ok, successful, _, _) =>
        if ok && successful {
          note := Some(LimitNotification(chargeLimit));
          ToggleIcon();
          applied := Some(chargeLimit);
        }
    }

    /**
     * `_toggleChargeLimit`: requests 60 from the full icon and 100 from the
     * other. The icon stays consistent with the limit applied last.
     */
    method ToggleChargeLimit(outcome: Outcome) returns (argv: seq<string>, note: Option<Notification>)
      modifies this
      ensures argv == SetLimitArgv(old(icon).LimitToRequest())
      ensures icon == AfterSet(old(icon), outcome)
      ensures note == if SetSucceeded(outcome) then Some(LimitNotification(old(icon).LimitToRequest())) else None
      ensures applied == if SetSucceeded(outcome) then Some(old(icon).LimitToRequest()) else old(applied)
      ensures SetSucceeded(outcome) ==> Valid()
      ensures old(Valid()) ==> Valid()
    {
      if icon.Name() == FullIconName {
        argv, note := RunCommand(LimitedPercent, outcome);
      } else {
        argv, note := RunCommand(StandardPercent, outcome);
      }
    }

    /**
     * `_runInitialCommand` with its completion handler run on `outcome`: a
     * reported maximum of 100 shows the full icon, any other the good icon;
     * a failed command or output without the pattern leaves the icon as it was.
     */
    method RunInitialCommand(outcome: Outcome) returns (argv: seq<string>)
      modifies this
      ensures argv == QueryArgv()
      ensures icon == AfterQuery(old(icon), outcome)
      ensures applied == if QueryReport(outcome).Some? then QueryReport(outcome) else old(applied)
      ensures QueryReport(outcome).Some? ==> Valid()
      ensures old(Valid()) ==> Valid()
    {
      argv := QueryArgv();
      match outcome
      case Raised =>
      case Completed(ok, _, stdout, _) =>
        if ok {
          match ParseMaximum(stdout)
          case Some(maxCharge) =>
            if maxCharge == StandardPercent {
              icon := Full;
            } else {
              icon := Good;
            }
            applied := Some(maxCharge);
          case None =>
        }
    }
  }
}
