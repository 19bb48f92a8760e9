/**
 * The Compose first-run wizard (FirstStartScreen). It shows the same five slides as the
 * view-based activity and keeps the permission answers and the upgrade flag in its own
 * state variables, refreshed on resume and by the permission launchers. Its gates and
 * skip rules are those of the activity read off that state, so both wizards share one
 * specification of where Next lands.
 */
module FirstStartScreen {
  import opened Wrappers
  import opened Preferences
  import opened FirstStartWizard

  /** What the bottom bar's Next handler did. */
  datatype NextOutcome = Refused | ScrolledTo(page: nat) | Finished

  class Screen {
    const prefs: SharedPreferences
    /** `pagerState.currentPage`. */
    var currentPage: nat
    var isStorageGranted: bool
    var isLocationGranted: bool
    var isNotificationGranted: bool
    var isApiUpgraded: bool
    /** `onFinish()` has been called. */
    var finished: bool

    ghost predicate Valid()
      reads this
    {
      currentPage < SLIDE_COUNT
    }

    /**
     * First composition: permissions as the platform reports them, and `isApiUpgraded`
     * true iff the upgrade flag is stored or this is still the first start.
     */
    constructor (prefs: SharedPreferences, perms: Permissions)
      ensures this.prefs == prefs && Valid() && currentPage == 0 && !finished
      ensures isStorageGranted == perms.storage && isLocationGranted == perms.location
      ensures isNotificationGranted == perms.notification
      ensures isApiUpgraded == UpgradedValue(prefs.bools)
    {
      this.prefs := prefs;
      currentPage := 0;
      isStorageGranted := perms.storage;
      isLocationGranted := perms.location;
      isNotificationGranted := perms.notification;
      isApiUpgraded := prefs.GetBoolean(PREF_UPGRADED_TO_API_LEVEL_30, false) ||
                       prefs.GetBoolean(PREF_FIRST_START, true);
      finished := false;
    }

    /**
     * What the skip rules see. NOTIFICATION is decided by a live permission query, not by
     * `isNotificationGranted`.
     */
    function Ctx(live: Permissions): Context
      reads this, prefs
    {
      Context(
        prefs.GetBoolean(PREF_FIRST_START, true),
        isStorageGranted,
        isLocationGranted,
        isApiUpgraded,
        prefs.GetBoolean(PREF_USE_ROOT, false),
        NotificationGranted(live))
    }

    /** `canAdvance()`: false only on STORAGE without storage or on API_LEVEL_30 not upgraded. */
    function CanAdvance(): (ok: bool)
      requires Valid()
      reads this
      ensures !ok <==> (SLIDES[currentPage] == Storage && !isStorageGranted) ||
                       (SLIDES[currentPage] == ApiLevel30 && !isApiUpgraded)
    {
      match SLIDES[currentPage]
      case Storage => isStorageGranted
      case ApiLevel30 => isApiUpgraded
      case _ => true
    }

    /** `shouldSkip(slide)`. */
    function ShouldSkip(slide: Slide, live: Permissions): (skip: bool)
      reads this, prefs
      ensures slide == Intro ==> (skip <==> !prefs.GetBoolean(PREF_FIRST_START, true))
      ensures slide == Storage ==> (skip <==> isStorageGranted)
      ensures slide == Location ==> (skip <==> isLocationGranted)
      ensures slide == ApiLevel30 ==> (skip <==> isApiUpgraded || prefs.GetBoolean(PREF_USE_ROOT, false))
      ensures slide == Notification ==> (skip <==> live.sdk < 33 || live.notification)
    {
      match slide
      case Intro => !prefs.GetBoolean(PREF_FIRST_START, true)
      case Storage => isStorageGranted
      case Location => isLocationGranted
      case ApiLevel30 => isApiUpgraded || prefs.GetBoolean(PREF_USE_ROOT, false)
      case Notification => if live.sdk < 33 then true else live.notification
    }

    /** The back button is enabled iff the pager is past the first page. */
    function BackEnabled(): (enabled: bool)
      reads this
      ensures enabled <==> currentPage > 0
    {
      currentPage > 0
    }

    /** Next is enabled once the lifecycle is resumed and the gate lets the page go. */
    function NextEnabled(resumed: bool): (enabled: bool)
      requires Valid()
      reads this
      ensures enabled <==> resumed && !(SLIDES[currentPage] == Storage && !isStorageGranted) &&
                           !(SLIDES[currentPage] == ApiLevel30 && !isApiUpgraded)
    {
      resumed && CanAdvance()
    }

    /**
     * `onNext()`: nothing when the gate refuses; otherwise a scan over the later pages
     * that scrolls to the first one not skipped, or calls `onFinish()`.
     */
    method OnNext(live: Permissions) returns (outcome: NextOutcome)
      requires Valid()
      modifies this
      ensures Valid()
      ensures !old(CanAdvance()) ==> outcome == Refused && currentPage == old(currentPage) && finished == old(finished)
      ensures old(CanAdvance()) ==>
                match NextTarget(old(Ctx(live)), old(currentPage))
                case Some(j) => outcome == ScrolledTo(j) && currentPage == j && finished == old(finished)
                case None => outcome == Finished && currentPage == old(currentPage) && finished
      ensures isStorageGranted == old(isStorageGranted) && isLocationGranted == old(isLocationGranted)
      ensures isNotificationGranted == old(isNotificationGranted) && isApiUpgraded == old(isApiUpgraded)
    {
      if !CanAdvance() {
        return Refused;
      }
      var nextIndex := currentPage + 1;
      while nextIndex < SLIDE_COUNT && ShouldSkip(SLIDES[nextIndex], live)
        invariant currentPage < nextIndex <= SLIDE_COUNT
        invariant forall j :: currentPage < j < nextIndex ==> Skipped(Ctx(live), SLIDES[j])
        decreases SLIDE_COUNT - nextIndex
      {
        nextIndex := nextIndex + 1;
      }
      if nextIndex >= SLIDE_COUNT {
        finished := true;
        outcome := Finished;
      } else {
        NextLandsOnTarget(Ctx(live), currentPage, nextIndex);
        currentPage := nextIndex;
        outcome := ScrolledTo(nextIndex);
      }
    }

    /** `onBack()`: one page back when there is one, skip rules not consulted. */
    method OnBack()
      requires Valid()
      modifies this
      ensures Valid()
      ensures old(currentPage) > 0 ==> currentPage == old(currentPage) - 1
      ensures old(currentPage) == 0 ==> currentPage == 0
      ensures finished == old(finished) && isApiUpgraded == old(isApiUpgraded)
      ensures isStorageGranted == old(isStorageGranted) && isLocationGranted == old(isLocationGranted)
    {
      var prevIndex := currentPage as int - 1;
      if prevIndex >= 0 {
        currentPage := prevIndex;
      }
    }

    /** The first composition's effect: when INTRO is to be skipped, Next is pressed once. */
    method AutoSkipIntro(live: Permissions) returns (outcome: Option<NextOutcome>)
      requires Valid() && currentPage == 0
      modifies this
      ensures Valid()
      ensures old(ShouldSkip(Intro, live)) <==> outcome.Some?
      ensures outcome.None? ==> currentPage == 0 && finished == old(finished)
      ensures outcome.Some? ==>
                match NextTarget(old(Ctx(live)), 0)
                case Some(j) => outcome.value == ScrolledTo(j) && currentPage == j
                case None => outcome.value == Finished && finished
    {
      if ShouldSkip(Intro, live) {
        var o := OnNext(live);
        outcome := Some(o);
      } else {
        outcome := None;
      }
    }

    /** The lifecycle observer: on ON_RESUME the three permission states are re-read. */
    method OnResume(perms: Permissions)
      modifies this
      ensures isStorageGranted == perms.storage && isLocationGranted == perms.location
      ensures isNotificationGranted == perms.notification
      ensures currentPage == old(currentPage) && finished == old(finished) && isApiUpgraded == old(isApiUpgraded)
    {
      isStorageGranted := perms.storage;
      isLocationGranted := perms.location;
      isNotificationGranted := perms.notification;
    }

    /** The location launcher's callback: granted iff every requested permission was granted. */
    method OnLocationResult(results: seq<bool>)
      modifies this
      ensures isLocationGranted <==> forall i :: 0 <= i < |results| ==> results[i]
      ensures isStorageGranted == old(isStorageGranted) && isApiUpgraded == old(isApiUpgraded)
      ensures currentPage == old(currentPage) && finished == old(finished)
      ensures isNotificationGranted == old(isNotificationGranted)
    {
      var all := true;
      var i := 0;
      while i < |results|
        invariant 0 <= i <= |results|
        invariant all <==> forall k :: 0 <= k < i ==> results[k]
      {
        all := all && results[i];
        i := i + 1;
      }
      isLocationGranted := all;
    }

    /** The storage launcher's callback re-reads the platform answer. */
    method OnStorageResult(storageGranted: bool)
      modifies this
      ensures isStorageGranted == storageGranted
      ensures isLocationGranted == old(isLocationGranted) && isApiUpgraded == old(isApiUpgraded)
      ensures currentPage == old(currentPage) && finished == old(finished)
      ensures isNotificationGranted == old(isNotificationGranted)
    {
      isStorageGranted := storageGranted;
    }

    /** The notification launcher's callback stores the answer. */
    method OnNotificationResult(isGranted: bool)
      modifies this
      ensures isNotificationGranted == isGranted
      ensures isLocationGranted == old(isLocationGranted) && isApiUpgraded == old(isApiUpgraded)
      ensures currentPage == old(currentPage) && finished == old(finished)
      ensures isStorageGranted == old(isStorageGranted)
    {
      isNotificationGranted := isGranted;
    }

    /**
     * The upgrade button: the activity's upgrade stores the upgrade flag (its database
     * deletion is not modelled) and the screen's state turns upgraded.
     */
    method OnUpgradeDatabase()
      modifies this, prefs
      ensures isApiUpgraded
      ensures prefs.bools == old(prefs.bools)[PREF_UPGRADED_TO_API_LEVEL_30 := true]
      ensures currentPage == old(currentPage) && finished == old(finished)
      ensures isStorageGranted == old(isStorageGranted) && isLocationGranted == old(isLocationGranted)
    {
      prefs.PutBoolean(PREF_UPGRADED_TO_API_LEVEL_30, true);
      isApiUpgraded := true;
    }
  }

  /** The scan stopped at `j`, the first later page not skipped: that is `NextTarget`. */
  lemma {:induction false} NextLandsOnTarget(ctx: Context, from: nat, j: nat)
    requires from < j < SLIDE_COUNT && !Skipped(ctx, SLIDES[j])
    requires forall k :: from < k < j ==> Skipped(ctx, SLIDES[k])
    ensures NextTarget(ctx, from) == Some(j)
    decreases j - from
  {
    if from + 1 < j {
      NextLandsOnTarget(ctx, from + 1, j);
    }
  }

  /**
   * Both wizards decide alike: when the screen's state agrees with the platform and the
   * stored flags, its skip rules and gates are the activity's.
   */
  lemma ScreenAgreesWithActivity(s: Screen, b: map<string, bool>, p: Permissions)
    requires s.prefs.bools == b
    requires s.isStorageGranted == p.storage && s.isLocationGranted == p.location
    requires s.isApiUpgraded == UpgradedValue(b)
    ensures s.Ctx(p) == ContextOf(b, p)
    ensures forall slide :: s.ShouldSkip(slide, p) == Skipped(ContextOf(b, p), slide)
  {
  }

  /** The finish label shows exactly on the last page. */
  lemma FinishLabelOnLastPage(page: nat)
    requires page < SLIDE_COUNT
    ensures LabelAt(page) == Finish <==> SLIDES[page] == Notification
  {
  }
}
