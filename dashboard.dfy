/**
 * The member dashboard page (`Dashboard`): the profile card, the
 * verification gate, the level-1 prompts, and the tab switcher.
 */
module Dashboard {
  import opened Wrappers
  import opened Js
  import opened ApiConfigs
  import opened Identity
  import opened UserRole
  import opened Social

  /** The profile as fetched: `null` until a fetch succeeds. */
  type Profile = Option<User>

  function LevelOf(profile: Profile): Option<int> {
    if profile.Some? then profile.value.level else None
  }

  /** `!profile?.isVerified`: the orange alert and the "restricted" banner text. */
  predicate ShowsVerificationAlert(profile: Profile) {
    profile.None? || !TruthyBool(profile.value.isVerified)
  }

  /** `profile?.isVerified ? Create Post : Verify Identity`. */
  predicate OffersCreatePost(profile: Profile) {
    profile.Some? && TruthyBool(profile.value.isVerified)
  }

  /** Exactly one of the alert and the Create Post button is on screen. */
  lemma VerificationGate(profile: Profile)
    ensures ShowsVerificationAlert(profile) <==> !OffersCreatePost(profile)
    ensures profile.Some? && profile.value.isVerified == Some(true) ==> OffersCreatePost(profile)
    ensures profile.None? ==> ShowsVerificationAlert(profile)
  {
  }

  /** `profile?.level === 1`. */
  predicate IsLevel1(profile: Profile) {
    LevelOf(profile) == Some(1)
  }

  /** The sidebar's first card. */
  datatype SidebarCard = LevelUpRequired | CommunityInsights

  function Sidebar(profile: Profile): (r: SidebarCard)
    ensures r == LevelUpRequired <==> LevelOf(profile) == Some(1)
  {
    if IsLevel1(profile) then LevelUpRequired else CommunityInsights
  }

  /** The "Profile Strength" percentage. */
  function ProfileStrength(profile: Profile): (r: nat)
    ensures r == 35 <==> LevelOf(profile) == Some(1)
    ensures r == 85 <==> LevelOf(profile) != Some(1)
  {
    if IsLevel1(profile) then 35 else 85
  }

  /** `profile?.level > 1`: the green check on the avatar. */
  predicate ShowsCheckBadge(profile: Profile) {
    LevelOf(profile).Some? && LevelOf(profile).value > 1
  }

  /** Level 1 members get the prompt and 35%, never the check; everyone above 1 the reverse. */
  lemma LevelOneLayout(profile: Profile)
    ensures IsLevel1(profile) ==> Sidebar(profile) == LevelUpRequired && ProfileStrength(profile) == 35 && !ShowsCheckBadge(profile)
    ensures ShowsCheckBadge(profile) ==> Sidebar(profile) == CommunityInsights && ProfileStrength(profile) == 85
  {
  }

  /** `profile?.level || 1`: the banner's level. */
  function BannerLevel(profile: Profile): (r: int)
    ensures LevelOf(profile).None? || LevelOf(profile) == Some(0) ==> r == 1
    ensures LevelOf(profile).Some? && LevelOf(profile).value != 0 ==> r == LevelOf(profile).value
  {
    if TruthyNumber(LevelOf(profile)) then LevelOf(profile).value else 1
  }

  /** `getRoleName(profile?.level)`: every comparison with `undefined` fails, so it falls to "Banned". */
  function BadgeName(profile: Profile): (r: string)
    ensures LevelOf(profile).None? ==> r == "Banned"
    ensures LevelOf(profile).Some? ==> r == RoleName(LevelOf(profile).value)
  {
    if LevelOf(profile).Some? then RoleName(LevelOf(profile).value) else "Banned"
  }

  /** `getRoleColor(profile?.level)`: `undefined` takes the default style. */
  function BadgeStyle(profile: Profile): (r: RoleStyle)
    ensures LevelOf(profile).None? ==> r == DefaultStyle
    ensures LevelOf(profile).Some? ==> r == RoleColor(LevelOf(profile).value)
  {
    if LevelOf(profile).Some? then RoleColor(LevelOf(profile).value) else DefaultStyle
  }

  /**
   * The banner and the badge read the level differently: a banned or
   * missing level shows "Level 1 Member" in the banner beside a "Banned"
   * badge; any other level agrees in both places.
   */
  lemma BannerAndBadge(profile: Profile)
    ensures LevelOf(profile).None? || LevelOf(profile) == Some(0) ==>
      BannerLevel(profile) == 1 && BadgeName(profile) == "Banned"
    ensures LevelOf(profile).Some? && LevelOf(profile).value >= 1 ==>
      BadgeName(profile) == RoleName(BannerLevel(profile))
  {
  }

  /** `profile?.connections?.length || 0`. */
  function FriendsCount(profile: Profile): (r: nat)
    ensures profile.None? || profile.value.connections.None? ==> r == 0
    ensures profile.Some? && profile.value.connections.Some? ==> r == |profile.value.connections.value|
  {
    if profile.Some? && profile.value.connections.Some? then |profile.value.connections.value| else 0
  }

  /** `(profile?.city || "Texas") + ", TX"`. */
  function LocationLine(profile: Profile): (r: string)
    ensures profile.Some? && TruthyText(profile.value.city) ==> r == profile.value.city.value + ", TX"
    ensures profile.None? || !TruthyText(profile.value.city) ==> r == "Texas, TX"
  {
    (if profile.Some? then TextOr(profile.value.city, "Texas") else "Texas") + ", TX"
  }

  /** The three tabs. */
  datatype Tab = FeedTab | MembersTab | EventsTab

  datatype PageState = PageState(profile: Profile, loading: bool, activeTab: Tab)

  /** `fetchProfile`: the profile on success; the spinner off either way. */
  function FetchProfileSpec(s: PageState, answer: Response<User>): PageState {
    s.(profile := if answer.Ok? then Some(answer.data) else s.profile, loading := false)
  }

  /** A failed fetch leaves the page with no profile: alert shown, banner at level 1, badge "Banned". */
  lemma FailedFetchShowsRestrictedPage(answer: Response<User>)
    requires answer.Failed?
    ensures !FetchProfileSpec(PageState(None, true, FeedTab), answer).loading
    ensures ShowsVerificationAlert(FetchProfileSpec(PageState(None, true, FeedTab), answer).profile)
    ensures BannerLevel(FetchProfileSpec(PageState(None, true, FeedTab), answer).profile) == 1
    ensures BadgeName(FetchProfileSpec(PageState(None, true, FeedTab), answer).profile) == "Banned"
  {
  }

  class DashboardPage {
    var profile: Profile
    var loading: bool
    var activeTab: Tab

    function State(): PageState
      reads this
    {
      PageState(profile, loading, activeTab)
    }

    constructor ()
      ensures State() == PageState(None, true, FeedTab)
    {
      profile := None;
      loading := true;
      activeTab := FeedTab;
    }

    method FetchProfile(answer: Response<User>)
      modifies this
      ensures State() == FetchProfileSpec(old(State()), answer)
    {
      if answer.Ok? {
        profile := Some(answer.data);
      }
      loading := false;
    }

    method SetActiveTab(tab: Tab)
      modifies this
      ensures State() == old(State()).(activeTab := tab)
    {
      activeTab := tab;
    }

    /** `handleResendEmail`: posts the profile's email (absent when there is none) and reports the outcome. */
    method HandleResendEmail(answer: Response<()>) returns (path: string, email: Option<string>, toast: Toast)
      ensures path == "/auth/resend-verification"
      ensures email == if profile.Some? then profile.value.email else None
      ensures answer.Ok? ==> toast == Toast("Email Sent! \U{1F1E8}\U{1F1EE}", "Please check your inbox (and spam folder).", false)
      ensures answer.Failed? ==> toast == Toast("Error", ErrorText(answer.error, "Could not resend email."), true)
    {
      path := "/auth/resend-verification";
      email := if profile.Some? then profile.value.email else None;
      if answer.Ok? {
        toast := Toast("Email Sent! \U{1F1E8}\U{1F1EE}", "Please check your inbox (and spam folder).", false);
      } else {
        toast := Toast("Error", ErrorText(answer.error, "Could not resend email."), true);
      }
    }
  }
}
