/**
 * The administration console (`AdminDashboard`): role cycling, the queue of
 * reported posts, the maintenance lockout, and the rule that every
 * destructive command needs an explicit confirmation.
 */
module AdminDashboard {
  import opened Wrappers
  import opened Js
  import opened BrowserStorage
  import opened ApiConfigs
  import opened UserRole
  import opened AuthContext

  // ---------------------------------------------------------------------
  // Role cycling.

  /** `handleUpdateRole`'s `nextLevel`: one step up, and from 5 or above back to 1. */
  function NextLevel(currentLevel: int): (r: int)
    ensures currentLevel >= 0 ==> 1 <= r <= 5
    ensures r == currentLevel + 1 || r == 1
  {
    if currentLevel >= 5 then 1 else currentLevel + 1
  }

  /** `n` clicks of Cycle Role. */
  function Cycled(level: int, n: nat): int
    decreases n
  {
    if n == 0 then level else Cycled(NextLevel(level), n - 1)
  }

  /**
   * The cycle never grants Owner and never bans: from any non-negative
   * level it lands on a member, moderator or administrator title.
   */
  lemma CycleNeverOwnerNorBanned(currentLevel: int)
    requires currentLevel >= 0
    ensures RoleName(NextLevel(currentLevel)) != "Owner"
    ensures RoleName(NextLevel(currentLevel)) != "Banned"
    ensures !RoleOf(NextLevel(currentLevel)).isOwner && RoleOf(NextLevel(currentLevel)).isUser
  {
  }

  /** From any level 1 to 5, five clicks come back, and no fewer do. */
  lemma {:induction false} CyclePeriodFive(level: int)
    requires 1 <= level <= 5
    ensures Cycled(level, 5) == level
    ensures forall n :: 0 < n < 5 ==> Cycled(level, n) != level
  {
    var l1 := NextLevel(level);
    var l2 := NextLevel(l1);
    var l3 := NextLevel(l2);
    var l4 := NextLevel(l3);
    assert Cycled(l4, 1) == NextLevel(l4);
    assert Cycled(l3, 2) == Cycled(l4, 1);
    assert Cycled(l2, 3) == Cycled(l3, 2);
    assert Cycled(l1, 4) == Cycled(l2, 3);
    assert Cycled(level, 5) == Cycled(l1, 4);
    assert Cycled(level, 1) == l1;
    assert Cycled(level, 2) == Cycled(l1, 1) == l2;
    assert Cycled(level, 3) == Cycled(l1, 2) == Cycled(l2, 1) == l3;
    assert Cycled(level, 4) == Cycled(l1, 3) == Cycled(l2, 2) == Cycled(l3, 1) == l4;
  }

  // ---------------------------------------------------------------------
  // The reported-content queue.

  datatype Report = Report(reason: Option<string>)

  /** A post of the feed as the console reads it. */
  datatype FeedPost = FeedPost(uid: Option<string>, content: string, reports: Option<seq<Report>>)

  /** `post.reports && post.reports.length > 0`. */
  predicate IsFlagged(p: FeedPost) {
    p.reports.Some? && |p.reports.value| > 0
  }

  /** `sub` is `s` with some elements left out, the rest in their order. */
  ghost predicate Sublist<T>(sub: seq<T>, s: seq<T>)
    decreases |s|
  {
    if sub == [] then true
    else if s == [] then false
    else (sub[0] == s[0] && Sublist(sub[1..], s[1..])) || Sublist(sub, s[1..])
  }

  /** `data.filter(post => post.reports && post.reports.length > 0)`. */
  function Flagged(feed: seq<FeedPost>): (r: seq<FeedPost>)
    ensures forall p :: p in r <==> p in feed && IsFlagged(p)
    ensures Sublist(r, feed)
    ensures |r| <= |feed|
  {
    if feed == [] then []
    else if IsFlagged(feed[0]) then [feed[0]] + Flagged(feed[1..])
    else Flagged(feed[1..])
  }

  /** Filtering a concatenation filters each part: the queue keeps feed order. */
  lemma {:induction false} FlaggedDistributes(a: seq<FeedPost>, b: seq<FeedPost>)
    ensures Flagged(a + b) == Flagged(a) + Flagged(b)
  {
    if a != [] {
      assert (a + b)[1..] == a[1..] + b;
      FlaggedDistributes(a[1..], b);
    } else {
      assert a + b == b;
    }
  }

  /** A queue already holds only flagged posts: filtering it again changes nothing. */
  lemma {:induction false} FlaggedIdempotent(feed: seq<FeedPost>)
    ensures Flagged(Flagged(feed)) == Flagged(feed)
  {
    if feed != [] {
      FlaggedIdempotent(feed[1..]);
    }
  }

  /** The tab's badge: the queue length, shown only when the queue is not empty. */
  function FlaggedBadge(reported: seq<FeedPost>): (r: Option<nat>)
    ensures r.Some? <==> |reported| > 0
    ensures r.Some? ==> r.value == |reported|
  {
    if |reported| > 0 then Some(|reported|) else None
  }

  // ---------------------------------------------------------------------
  // The command menu and what each command sends.

  datatype Command = ResendVerifyCommand | ForceResetCommand | CycleRoleCommand | GhostModeCommand | IpBanCommand | PurgeCommand

  predicate OwnerOnly(c: Command) {
    c == CycleRoleCommand || c == GhostModeCommand || c == IpBanCommand || c == PurgeCommand
  }

  /** The commands each registry row offers. */
  function CommandMenu(isOwner: bool): (r: seq<Command>)
    ensures ResendVerifyCommand in r && ForceResetCommand in r
    ensures forall c :: OwnerOnly(c) ==> (c in r <==> isOwner)
  {
    [ResendVerifyCommand, ForceResetCommand]
      + (if isOwner then [CycleRoleCommand, GhostModeCommand, IpBanCommand, PurgeCommand] else [])
  }

  /** The owner-only commands and the maintenance card appear exactly from level 6 up. */
  lemma OwnerControlsNeedLevelSix(level: int, c: Command)
    requires OwnerOnly(c)
    ensures c in CommandMenu(RoleOf(level).isOwner) <==> level >= 6
    ensures MaintenanceCardShown(RoleOf(level)) <==> level >= 6
  {
  }

  predicate MaintenanceCardShown(role: Role) {
    role.isOwner
  }

  /** A console handler, with the argument it is called with. */
  datatype Action =
    | GhostLogin(userId: string)
    | BanUserIp(userId: string)
    | DeleteUser(userId: string)
    | DeletePost(postId: string)
    | ResendVerification(userId: string)
    | TriggerReset(userId: string)
    | UpdateRole(userId: string, currentLevel: int)
    | ToggleMaintenance(current: bool)
    | Dismiss(postId: string)

  /** The backend call a handler issues. */
  datatype AdminCall =
    | GhostLoginCall(userId: string)
    | BanIpCall(userId: string, reason: string)
    | DeleteUserCall(userId: string)
    | DeletePostCall(postId: string)
    | ResendVerifyCall(userId: string)
    | TriggerResetCall(userId: string)
    | UpdateRoleCall(userId: string, newLevel: int)
    | SetMaintenanceCall(maintenance: bool)
    | DismissReportsCall(postId: string)

  /** The handlers that ask `window.confirm` before calling. */
  predicate AsksConfirmation(a: Action) {
    !a.ResendVerification? && !a.Dismiss?
  }

  /** The confirmation dialog is reached: the ban's reason prompt comes first. */
  predicate ConfirmationShown(a: Action, reason: Option<string>) {
    AsksConfirmation(a) && (a.BanUserIp? ==> TruthyText(reason))
  }

  /**
   * The call a handler makes, given the text typed into the ban prompt and
   * the answer to the confirmation: none when either is declined.
   */
  function Plan(a: Action, reason: Option<string>, confirmed: bool): (r: Option<AdminCall>)
    ensures r.None? <==> (a.BanUserIp? && !TruthyText(reason)) || (AsksConfirmation(a) && !confirmed)
    ensures r.Some? && a.UpdateRole? ==> r.value == UpdateRoleCall(a.userId, NextLevel(a.currentLevel))
    ensures r.Some? && a.ToggleMaintenance? ==> r.value == SetMaintenanceCall(!a.current)
    ensures r.Some? && a.BanUserIp? ==> r.value == BanIpCall(a.userId, reason.value)
  {
    match a
    case BanUserIp(userId) =>
      if !TruthyText(reason) || !confirmed then None else Some(BanIpCall(userId, reason.value))
    case ResendVerification(userId) => Some(ResendVerifyCall(userId))
    case Dismiss(postId) => Some(DismissReportsCall(postId))
    case _ =>
      if !confirmed then None
      else match a
        case GhostLogin(userId) => Some(GhostLoginCall(userId))
        case DeleteUser(userId) => Some(DeleteUserCall(userId))
        case DeletePost(postId) => Some(DeletePostCall(postId))
        case TriggerReset(userId) => Some(TriggerResetCall(userId))
        case UpdateRole(userId, level) => Some(UpdateRoleCall(userId, NextLevel(level)))
        case ToggleMaintenance(current) => Some(SetMaintenanceCall(!current))
  }

  /**
   * Declining never calls: no destructive command reaches the backend
   * without a "yes", and an empty or cancelled ban reason stops the ban
   * before the confirmation is even asked.
   */
  lemma DeclineAborts(a: Action, reason: Option<string>)
    ensures AsksConfirmation(a) ==> Plan(a, reason, false).None?
    ensures a.BanUserIp? && !TruthyText(reason) ==> !ConfirmationShown(a, reason) && Plan(a, reason, true).None?
    ensures !AsksConfirmation(a) ==> Plan(a, reason, false).Some?
  {
  }

  /**
   * Where a call is sent as the source is written, over `ENDPOINTS`:
   * `Thrown` when looking its entry up throws a TypeError before any
   * request is made.
   */
  function RequestAsWritten(call: AdminCall): Url {
    match call
    case GhostLoginCall(_) => Interpolate(Endpoints, Admin, GhostLoginEntry)
    case BanIpCall(_, _) => Interpolate(Endpoints, Admin, BanIp)
    case DeleteUserCall(userId) => Invoke(Endpoints, Admin, DeleteUserEntry, userId)
    case DeletePostCall(postId) => PostUrl(Endpoints, postId)
    case ResendVerifyCall(_) => Interpolate(Endpoints, Admin, ResendVerify)
    case TriggerResetCall(_) => Interpolate(Endpoints, Admin, TriggerResetEntry)
    case UpdateRoleCall(_, _) => Interpolate(Endpoints, Admin, UpdateRoleEntry)
    case SetMaintenanceCall(_) => Url("/admin/system-status")
    case DismissReportsCall(postId) => Invoke(Endpoints, Posts, DismissReports, postId)
  }


  /** The administrative summary `/admin` returns (its figures are only displayed). */
  datatype Stats = Stats(totalUsers: Option<int>, verifiedUsers: Option<int>)

  /** A ghost login's answer: the other member's token and serialised record. */
  datatype GhostSession = GhostSession(token: string, userJson: string)

  datatype AdminState = AdminState(
    stats: Option<Stats>,
    loading: bool,
    isRefreshing: bool,
    reportedPosts: seq<FeedPost>,
    isMaintenance: bool)

  /** `fetchStats(silent)`: whatever the answer, both spinners stop. */
  function FetchStatsSpec(s: AdminState, answer: Response<Stats>): AdminState {
    s.(stats := if answer.Ok? then Some(answer.data) else s.stats, loading := false, isRefreshing := false)
  }

  /** `fetchReportedContent`: the flagged posts of the feed replace the queue. */
  function FetchReportedSpec(s: AdminState, feed: Response<seq<FeedPost>>): AdminState {
    if feed.Ok? then s.(reportedPosts := Flagged(feed.data)) else s
  }

  /** `fetchSystemStatus`. */
  function FetchStatusSpec(s: AdminState, answer: Response<bool>): AdminState {
    if answer.Ok? then s.(isMaintenance := answer.data) else s
  }

  /** `handleToggleMaintenance`: the server's answer is adopted; a decline or a failure changes nothing. */
  function ToggleSpec(s: AdminState, confirmed: bool, answer: Response<bool>): AdminState {
    if confirmed && answer.Ok? then s.(isMaintenance := answer.data) else s
  }

  /**
   * The maintenance toggle asks the server for the negation of the current
   * flag, and the flag then shows what the server answered.
   */
  lemma ToggleOutcomes(s: AdminState, confirmed: bool, answer: Response<bool>)
    ensures Plan(ToggleMaintenance(s.isMaintenance), None, confirmed) ==
      (if confirmed then Some(SetMaintenanceCall(!s.isMaintenance)) else None)
    ensures !confirmed ==> ToggleSpec(s, confirmed, answer) == s
    ensures confirmed && answer.Ok? ==> ToggleSpec(s, confirmed, answer).isMaintenance == answer.data
    ensures ToggleSpec(s, confirmed, answer).reportedPosts == s.reportedPosts
  {
  }

  /** The state each handler leaves after its call's answer, including the refresh it triggers. */
  function AfterCommandSpec(s: AdminState, call: Option<AdminCall>, answer: Response<()>,
                            stats: Response<Stats>, feed: Response<seq<FeedPost>>): AdminState
  {
    if call.None? || answer.Failed? then s
    else match call.value
      case BanIpCall(_, _) => FetchStatsSpec(s, stats)
      case DeleteUserCall(_) => FetchStatsSpec(s, stats)
      case UpdateRoleCall(_, _) => FetchStatsSpec(s, stats)
      case DeletePostCall(_) => FetchReportedSpec(s, feed)
      case DismissReportsCall(_) => FetchReportedSpec(s, feed)
      case _ => s
  }

  /** What a handler meets when its lookup throws: no response at all. */
  const NoResponse: HttpError := HttpError(None, None)

  /**
   * A handler as written: a lookup that throws lands in its catch, and the
   * refreshed statistics never arrive, since `ENDPOINTS.ADMIN.STATS` throws too.
   */
  function AfterCommandAsWritten(s: AdminState, call: Option<AdminCall>, answer: Response<()>,
                                 feed: Response<seq<FeedPost>>): AdminState
  {
    var reached := if call.Some? && RequestAsWritten(call.value).Thrown? then Failed(NoResponse) else answer;
    AfterCommandSpec(s, call, reached, Failed(NoResponse), feed)
  }

  /**
   * As written, every console call but the maintenance toggle and the post
   * deletion throws before its request, so a confirmed command changes
   * nothing whatever the backend would have answered; the statistics fetch
   * throws as well and only stops the spinners; and the post deletion is
   * sent to a path that starts with "undefined".
   */
  lemma AdminCallsAsWritten(s: AdminState, a: Action, reason: Option<string>, confirmed: bool,
                            answer: Response<()>, feed: Response<seq<FeedPost>>)
    ensures Interpolate(Endpoints, Admin, Key.Stats) == Thrown
    ensures FetchStatsSpec(s, Failed(NoResponse)).stats == s.stats
    ensures Plan(a, reason, confirmed).Some? && !a.DeletePost? && !a.ToggleMaintenance? ==>
      RequestAsWritten(Plan(a, reason, confirmed).value) == Thrown
    ensures !a.DeletePost? && !a.ToggleMaintenance? ==>
      AfterCommandAsWritten(s, Plan(a, reason, confirmed), answer, feed) == s
    ensures Plan(a, reason, confirmed).Some? && a.DeletePost? ==>
      RequestAsWritten(Plan(a, reason, confirmed).value) == Url("undefined/" + a.postId)
    ensures Plan(a, reason, confirmed).Some? && a.ToggleMaintenance? ==>
      RequestAsWritten(Plan(a, reason, confirmed).value) == Url("/admin/system-status")
  {
  }

  /** The console's first state. */
  function InitialState(): AdminState {
    AdminState(None, true, false, [], false)
  }

  /**
   * `initCommandCenter` for a context value that offers the members
   * `offered` names: it awaits `checkUser` first, and a missing member
   * throws, which the surrounding catch swallows before anything else runs.
   */
  function InitSpec(s: AdminState, offered: ContextMember -> bool, stats: Response<Stats>,
                    feed: Response<seq<FeedPost>>, status: Response<bool>): AdminState
  {
    if !offered(CheckUserFn) then s
    else FetchStatusSpec(FetchReportedSpec(FetchStatsSpec(s, stats), feed), status)
  }

  /**
   * As written the provider does not offer `checkUser`, so the console's
   * start-up stops at its first step and the page never leaves its spinner,
   * whatever the backend would answer.
   */
  lemma InitNeverSettlesAsWritten(stats: Response<Stats>, feed: Response<seq<FeedPost>>, status: Response<bool>)
    ensures InitSpec(InitialState(), Provides, stats, feed, status).loading
    ensures InitSpec(InitialState(), Provides, stats, feed, status) == InitialState()
  {
  }

  /** With `checkUser` in the context value, start-up always settles and loads the queue. */
  lemma InitSettles(s: AdminState, stats: Response<Stats>, feed: Response<seq<FeedPost>>, status: Response<bool>)
    ensures !InitSpec(s, ProvidesWithCheckUser, stats, feed, status).loading
    ensures !InitSpec(s, ProvidesWithCheckUser, stats, feed, status).isRefreshing
    ensures feed.Ok? ==> InitSpec(s, ProvidesWithCheckUser, stats, feed, status).reportedPosts == Flagged(feed.data)
  {
  }

  class AdminConsole {
    var stats: Option<Stats>
    var loading: bool
    var isRefreshing: bool
    var reportedPosts: seq<FeedPost>
    var isMaintenance: bool

    function State(): AdminState
      reads this
    {
      AdminState(stats, loading, isRefreshing, reportedPosts, isMaintenance)
    }

    constructor ()
      ensures State() == InitialState()
    {
      stats := None;
      loading := true;
      isRefreshing := false;
      reportedPosts := [];
      isMaintenance := false;
    }

    method FetchStats(silent: bool, answer: Response<Stats>)
      modifies this
      ensures State() == FetchStatsSpec(old(State()), answer)
    {
      if !silent { loading := true; } else { isRefreshing := true; }
      if answer.Ok? {
        stats := Some(answer.data);
      }
      loading := false;
      isRefreshing := false;
    }

    method FetchReportedContent(feed: Response<seq<FeedPost>>)
      modifies this
      ensures State() == FetchReportedSpec(old(State()), feed)
    {
      if feed.Ok? {
        reportedPosts := Flagged(feed.data);
      }
    }

    method FetchSystemStatus(answer: Response<bool>)
      modifies this
      ensures State() == FetchStatusSpec(old(State()), answer)
    {
      if answer.Ok? {
        isMaintenance := answer.data;
      }
    }

    /** `initCommandCenter`, with the context value completed by `checkUser`. */
    method InitCommandCenter(stats: Response<Stats>, feed: Response<seq<FeedPost>>, status: Response<bool>)
      modifies this
      ensures State() == InitSpec(old(State()), ProvidesWithCheckUser, stats, feed, status)
    {
      FetchStats(false, stats);
      FetchReportedContent(feed);
      FetchSystemStatus(status);
    }

    /** `handleToggleMaintenance`, with the confirmation's answer and the server's. */
    method HandleToggleMaintenance(confirmed: bool, answer: Response<bool>) returns (call: Option<AdminCall>)
      modifies this
      ensures call == Plan(ToggleMaintenance(old(isMaintenance)), None, confirmed)
      ensures State() == ToggleSpec(old(State()), confirmed, answer)
    {
      call := Plan(ToggleMaintenance(isMaintenance), None, confirmed);
      if call.None? {
        return;
      }
      if answer.Ok? {
        isMaintenance := answer.data;
      }
    }

    /**
     * Every other handler but the ghost login: the prompt and the
     * confirmation decide the call, and a successful ban, purge or role
     * change re-fetches the statistics, a successful post deletion or
     * dismissal the queue.
     */
    method HandleCommand(a: Action, reason: Option<string>, confirmed: bool, answer: Response<()>,
                         statsAnswer: Response<Stats>, feed: Response<seq<FeedPost>>)
      returns (call: Option<AdminCall>)
      requires !a.GhostLogin? && !a.ToggleMaintenance?
      modifies this
      ensures call == Plan(a, reason, confirmed)
      ensures State() == AfterCommandSpec(old(State()), call, answer, statsAnswer, feed)
    {
      call := Plan(a, reason, confirmed);
      if call.None? || answer.Failed? {
        return;
      }
      match call.value {
        case BanIpCall(_, _) => FetchStats(true, statsAnswer);
        case DeleteUserCall(_) => FetchStats(true, statsAnswer);
        case UpdateRoleCall(_, _) => FetchStats(true, statsAnswer);
        case DeletePostCall(_) => FetchReportedContent(feed);
        case DismissReportsCall(_) => FetchReportedContent(feed);
        case _ =>
      }
    }

    /**
     * `handleGhostLogin`: on a confirmed, successful call the other
     * member's token and record replace the session's in storage, and the
     * page moves to "/dashboard".
     */
    method HandleGhostLogin(storage: LocalStorage, userId: string, confirmed: bool, answer: Response<GhostSession>)
      returns (call: Option<AdminCall>, navigateTo: Option<string>)
      modifies storage
      ensures call == Plan(GhostLogin(userId), None, confirmed)
      ensures navigateTo.Some? <==> confirmed && answer.Ok?
      ensures navigateTo.Some? ==> navigateTo.value == "/dashboard"
      ensures storage.items == if confirmed && answer.Ok?
        then old(storage.items)[TokenKey := answer.data.token][UserKey := answer.data.userJson]
        else old(storage.items)
    {
      call := Plan(GhostLogin(userId), None, confirmed);
      navigateTo := None;
      if !confirmed {
        return;
      }
      if answer.Ok? {
        storage.SetItem(TokenKey, answer.data.token);
        storage.SetItem(UserKey, answer.data.userJson);
        navigateTo := Some("/dashboard");
      }
    }
  }
}
