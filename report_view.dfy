/** The report review page (frontend/src/page/ReportViewPage.tsx): loading
    a report and its subject's ban history, deriving the current ban, and
    the rules of what the page shows. */
module ReportView {
  import opened Common
  import opened Bans

  /** The four lifecycle states of a report. */
  datatype ReportStatus = Opened | NeedMoreInfo | ClosedWithoutAction | ClosedWithAction

  /** The fields of a report that the page reads. `reported_id` 0 is the
      falsy id, `reason` 0 the falsy reason code. */
  datatype Report = Report(
    report_id: int, author_id: SteamId, reported_id: SteamId,
    report_status: ReportStatus, reason: int, reason_text: string)

  /** A report with the profile of its author and of its subject. */
  datatype ReportWithAuthor = ReportWithAuthor(report: Report, author: Person, subject: Person)

  // ---------------------------------------------------------------------
  // The current ban

  /** `history.filter((b) => !b.deleted)`. */
  function Live(history: seq<BanRecord>): (r: seq<BanRecord>)
    decreases |history|
  {
    if history == [] then []
    else
      var last := history[|history| - 1];
      Live(history[..|history| - 1]) + (if last.deleted then [] else [last])
  }

  /** `.pop()`: the last element, absent for an empty list. */
  function Pop<T>(s: seq<T>): (r: Option<T>)
    ensures r.None? <==> s == []
    ensures r.Some? ==> r.value == s[|s| - 1]
  {
    if s == [] then None else Some(s[|s| - 1])
  }

  /** The current ban: the last entry of the history that is not deleted. */
  function CurrentBan(history: seq<BanRecord>): Option<BanRecord> {
    Pop(Live(history))
  }

  /** The entry at `i` is the current ban iff it is not deleted and every
      later entry is. */
  lemma {:induction false} CurrentBanIsLastLive(history: seq<BanRecord>, i: nat)
    requires i < |history| && !history[i].deleted
    requires forall j :: i < j < |history| ==> history[j].deleted
    ensures CurrentBan(history) == Some(history[i])
    decreases |history|
  {
    var init, last := history[..|history| - 1], history[|history| - 1];
    if i < |history| - 1 {
      assert last.deleted;
      assert init[i] == history[i];
      forall j | i < j < |init| ensures init[j].deleted {
        assert init[j] == history[j];
      }
      CurrentBanIsLastLive(init, i);
    }
  }

  /** There is no current ban iff every entry is deleted; otherwise the
      current ban is an entry of the history that is not deleted. */
  lemma {:induction false} CurrentBanAbsent(history: seq<BanRecord>)
    ensures CurrentBan(history).None? <==> forall i :: 0 <= i < |history| ==> history[i].deleted
    ensures CurrentBan(history).Some? ==>
              CurrentBan(history).value in history && !CurrentBan(history).value.deleted
    decreases |history|
  {
    if history != [] {
      var init, last := history[..|history| - 1], history[|history| - 1];
      CurrentBanAbsent(init);
      forall j | 0 <= j < |init| ensures init[j] == history[j] { }
      if !last.deleted {
        assert CurrentBan(history) == Some(last);
      } else {
        assert Live(history) == Live(init);
      }
    }
  }

  // ---------------------------------------------------------------------
  // What the page shows

  /** The background of a heading. */
  datatype HeadingColour = ErrorColour | WarningColour

  /** The heading that `renderBan` draws for a ban. */
  datatype BanHeading = BanHeading(text: string, colour: HeadingColour)

  /** `renderBan`: a ban of type Banned is announced as such, any other
      type, valid or not, as a mute. */
  function RenderBan(ban: BanRecord): (h: BanHeading)
    ensures h.text == "Banned" <==> ban.ban_type == BanTypeCode(Banned)
    ensures h.text == "Muted" <==> ban.ban_type != BanTypeCode(Banned)
    ensures h.colour == ErrorColour <==> h.text == "Banned"
  {
    if ban.ban_type == BanTypeCode(Banned) then BanHeading("Banned", ErrorColour)
    else BanHeading("Muted", WarningColour)
  }

  /** The status the Report Status panel shows: the loaded report's, or
      Opened while none is loaded. */
  function ShownStatus(report: Option<ReportWithAuthor>): ReportStatus {
    match report
    case Some(r) => r.report.report_status
    case None => Opened
  }

  lemma ShownStatusDefault(report: Option<ReportWithAuthor>)
    ensures report.None? ==> ShownStatus(report) == Opened
    ensures report.Some? ==> ShownStatus(report) == report.value.report.report_status
  {
  }

  /** The statuses the resolve control offers, in menu order. */
  const ResolveChoices: seq<ReportStatus> :=
    [Opened, NeedMoreInfo, ClosedWithoutAction, ClosedWithAction]

  /** The resolve panel: its choices when the user may resolve, else none. */
  function ResolveControls(level: PermissionLevel): (r: Option<seq<ReportStatus>>)
    ensures r.Some? <==> level == Moderator || level == Admin
    ensures r.Some? ==> |r.value| == 4 && NoDuplicates(r.value)
    ensures r.Some? ==> forall s: ReportStatus :: s in r.value
  {
    ResolveChoicesComplete();
    if AtLeastModerator(level) then Some(ResolveChoices) else None
  }

  /** The menu lists every status once. */
  lemma ResolveChoicesComplete()
    ensures NoDuplicates(ResolveChoices)
    ensures forall s: ReportStatus :: s in ResolveChoices
  {
    forall s: ReportStatus ensures s in ResolveChoices {
      match s
      case Opened => assert ResolveChoices[0] == s;
      case NeedMoreInfo => assert ResolveChoices[1] == s;
      case ClosedWithoutAction => assert ResolveChoices[2] == s;
      case ClosedWithAction => assert ResolveChoices[3] == s;
    }
  }

  /** The subject panel: a spinner until a report with a subject is loaded,
      then the subject with the current ban's heading, if there is one. */
  datatype SubjectPanel = Spinner | Subject(person: Person, ban: Option<BanHeading>)

  function ShowSubject(report: Option<ReportWithAuthor>, currentBan: Option<BanRecord>): (p: SubjectPanel)
    ensures p.Spinner? <==> report.None? || report.value.subject.steam_id == 0
    ensures p.Subject? ==> p.person == report.value.subject
    ensures p.Subject? ==> (p.ban.Some? <==> currentBan.Some?)
    ensures p.Subject? && currentBan.Some? ==> p.ban.value == RenderBan(currentBan.value)
  {
    match report
    case None => Spinner
    case Some(r) =>
      if r.subject.steam_id == 0 then Spinner
      else Subject(r.subject, match currentBan case Some(b) => Some(RenderBan(b)) case None => None)
  }

  /** The ban history query of `loadBans`: none without a subject id,
      otherwise up to 100 bans of the subject, deleted ones included. */
  function BansQueryFor(report: Option<ReportWithAuthor>): (q: Option<BansQueryFilter>)
    ensures q.None? <==> report.None? || report.value.report.reported_id == 0
    ensures q.Some? ==> q.value.limit == Some(100) && q.value.deleted == Some(true) &&
                        q.value.steam_id == Some(report.value.report.reported_id)
  {
    match report
    case None => None
    case Some(r) =>
      if r.report.reported_id == 0 then None
      else Some(BansQueryFilter(Some(100), Some(true), Some(r.report.reported_id)))
  }

  /** The notice shown when opening a report is refused. */
  const DeniedMessage := "Permission denied. Only report authors, subjects and mods can view reports"

  // ---------------------------------------------------------------------
  // Page state

  class ReportViewPage {
    var report: Option<ReportWithAuthor>
    var stateAction: ReportStatus
    var banHistory: seq<BanRecord>
    var currentBan: Option<BanRecord>
    var notices: seq<Notice>
    /** The route the page has navigated to, if any. */
    var navigatedTo: Option<string>

    /** The current ban is always the one derived from the shown history. */
    predicate Valid()
      reads this
    {
      currentBan == CurrentBan(banHistory)
    }

    constructor ()
      ensures Valid()
      ensures report.None? && stateAction == Opened && banHistory == [] && currentBan.None?
      ensures notices == [] && navigatedTo.None?
      ensures stateAction == ShownStatus(report)
    {
      report, stateAction, banHistory, currentBan := None, Opened, [], None;
      notices, navigatedTo := [], None;
    }

    /** The report request settled: a report is stored and its status
        selected; a null response changes nothing; a refusal shows the
        denial notice and leaves for the report list. */
    method OnReportFetched(outcome: Fetch<Option<ReportWithAuthor>>)
      requires Valid()
      modifies this
      ensures Valid()
      ensures banHistory == old(banHistory) && currentBan == old(currentBan)
      ensures outcome.Resolved? && outcome.value.Some? ==> stateAction == ShownStatus(report)
      ensures outcome.Resolved? && outcome.value.Some? ==>
                report == outcome.value && stateAction == outcome.value.value.report.report_status &&
                notices == old(notices) && navigatedTo == old(navigatedTo)
      ensures outcome.Resolved? && outcome.value.None? ==>
                report == old(report) && stateAction == old(stateAction) &&
                notices == old(notices) && navigatedTo == old(navigatedTo)
      ensures outcome.Rejected? ==>
                report == old(report) && stateAction == old(stateAction) &&
                notices == old(notices) + [Notice(Error, DeniedMessage)] && navigatedTo == Some("/report")
    {
      match outcome {
        case Resolved(r) =>
          if r.Some? {
            report := r;
            stateAction := r.value.report.report_status;
          }
        case Rejected(_) =>
          notices := notices + [Notice(Error, DeniedMessage)];
          navigatedTo := Some("/report");
      }
    }

    /** `loadBans`: the query it issues for the loaded report, if any. */
    method LoadBans() returns (query: Option<BansQueryFilter>)
      ensures query == BansQueryFor(report)
    {
      query := BansQueryFor(report);
    }

    /** The ban history request settled: the fetched list replaces the
        history wholesale and the current ban is derived from it; a
        rejection, which the page does not catch, changes nothing. */
    method OnBansFetched(outcome: Fetch<seq<BanRecord>>)
      requires Valid()
      modifies this`banHistory, this`currentBan
      ensures Valid()
      ensures outcome.Resolved? ==> banHistory == outcome.value
      ensures outcome.Rejected? ==> banHistory == old(banHistory) && currentBan == old(currentBan)
    {
      if outcome.Resolved? {
        banHistory := outcome.value;
        currentBan := CurrentBan(outcome.value);
      }
    }

    /** Choosing a status in the resolve control. */
    method OnStateSelected(status: ReportStatus)
      modifies this`stateAction
      ensures stateAction == status
    {
      stateAction := status;
    }

    /** The set-state request settled. `statusLabel` stands for the status label
        function of the API module: success reports the change from the
        shown status to the selected one, failure the error's message. */
    method OnSetReportState(outcome: Fetch<()>, statusLabel: ReportStatus -> string)
      modifies this`notices
      ensures outcome.Resolved? ==>
                notices == old(notices) + [Notice(Success, "State changed from " + statusLabel(ShownStatus(report)) +
                                                           " => " + statusLabel(stateAction))]
      ensures outcome.Rejected? ==>
                notices == old(notices) + [Notice(Error, "Failed to set report state: " + outcome.reason)]
    {
      match outcome {
        case Resolved(_) =>
          notices := notices + [Notice(Success, "State changed from " + statusLabel(ShownStatus(report)) +
                                                " => " + statusLabel(stateAction))];
        case Rejected(e) =>
          notices := notices + [Notice(Error, "Failed to set report state: " + e)];
      }
    }
  }
}
