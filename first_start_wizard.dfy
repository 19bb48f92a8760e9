/**
 * The view-based first-run wizard (FirstStartActivity): five slides shown in a fixed
 * order, a gate that may refuse to leave the current slide, skip rules that depend on the
 * granted permissions and stored preferences, and a forward scan that lands on the next
 * slide that is not skipped or, when there is none, finishes the wizard.
 *
 * Permission checks are platform calls and come in as a `Permissions` value; starting
 * the main screen is recorded in the `started` field.
 */
module FirstStartWizard {
  import opened Wrappers
  import opened Preferences

  datatype Slide = Intro | Storage | Location | ApiLevel30 | Notification

  /** The slides in the order the pager shows them (the enum's declaration order). */
  const SLIDES: seq<Slide> := [Intro, Storage, Location, ApiLevel30, Notification]
  const SLIDE_COUNT: nat := 5
  /** Index of the API_LEVEL_30 slide. */
  const API_SLIDE_INDEX: nat := 3

  /** The answers the platform gives to the permission queries, and the SDK level. */
  datatype Permissions = Permissions(storage: bool, location: bool, notification: bool, sdk: int)

  /** Notification permission only exists from SDK 33 on; below that it counts as granted. */
  predicate NotificationGranted(p: Permissions) {
    p.sdk < 33 || p.notification
  }

  /** Everything the skip rules and the gates look at. */
  datatype Context = Context(
    firstStart: bool,
    storage: bool,
    location: bool,
    upgraded: bool,
    useRoot: bool,
    notification: bool)

  /** The value `upgradedToApiLevel30()` returns for the stored booleans `b`. */
  function UpgradedValue(b: map<string, bool>): bool {
    Lookup(b, PREF_UPGRADED_TO_API_LEVEL_30, false) || Lookup(b, PREF_FIRST_START, true)
  }

  /** The stored booleans after `upgradedToApiLevel30()`: on first start the flag is written. */
  function AfterUpgradeCheck(b: map<string, bool>): map<string, bool> {
    if Lookup(b, PREF_UPGRADED_TO_API_LEVEL_30, false) then b
    else if Lookup(b, PREF_FIRST_START, true) then b[PREF_UPGRADED_TO_API_LEVEL_30 := true]
    else b
  }

  function ContextOf(b: map<string, bool>, p: Permissions): Context {
    Context(
      Lookup(b, PREF_FIRST_START, true),
      p.storage,
      p.location,
      UpgradedValue(b),
      Lookup(b, PREF_USE_ROOT, false),
      NotificationGranted(p))
  }

  /** The skip rule of each slide. */
  predicate Skipped(ctx: Context, slide: Slide) {
    match slide
    case Intro => !ctx.firstStart
    case Storage => ctx.storage
    case Location => ctx.location
    case ApiLevel30 => ctx.upgraded || ctx.useRoot
    case Notification => ctx.notification
  }

  /** Next may leave `slide` unless it is STORAGE without permission or API_LEVEL_30 not upgraded. */
  predicate MayAdvance(ctx: Context, slide: Slide) {
    (slide == Storage ==> ctx.storage) && (slide == ApiLevel30 ==> ctx.upgraded)
  }

  /**
   * The slide Next lands on from index `from`: the smallest later index whose slide is
   * not skipped, or None when every later slide is skipped.
   */
  function NextTarget(ctx: Context, from: nat): (r: Option<nat>)
    requires from < SLIDE_COUNT
    ensures r.Some? ==> from < r.value < SLIDE_COUNT && !Skipped(ctx, SLIDES[r.value])
    ensures r.Some? ==> forall j :: from < j < r.value ==> Skipped(ctx, SLIDES[j])
    ensures r.None? <==> forall j :: from < j < SLIDE_COUNT ==> Skipped(ctx, SLIDES[j])
    decreases SLIDE_COUNT - from
  {
    if from + 1 == SLIDE_COUNT then None
    else if !Skipped(ctx, SLIDES[from + 1]) then Some(from + 1)
    else NextTarget(ctx, from + 1)
  }

  /** Whether the forward scan from `from` asks `upgradedToApiLevel30()` (and may write the flag). */
  predicate ScanChecksUpgrade(ctx: Context, from: nat)
    requires from < SLIDE_COUNT
  {
    from == API_SLIDE_INDEX ||
    (from < API_SLIDE_INDEX && forall j :: from < j < API_SLIDE_INDEX ==> Skipped(ctx, SLIDES[j]))
  }

  /** Writing the upgrade flag changes none of the values the skip rules read. */
  lemma AfterUpgradeCheckKeepsContext(b: map<string, bool>, p: Permissions)
    ensures ContextOf(AfterUpgradeCheck(b), p) == ContextOf(b, p)
    ensures AfterUpgradeCheck(AfterUpgradeCheck(b)) == AfterUpgradeCheck(b)
    ensures UpgradedValue(b) ==> Lookup(AfterUpgradeCheck(b), PREF_UPGRADED_TO_API_LEVEL_30, false)
    ensures !UpgradedValue(b) ==> AfterUpgradeCheck(b) == b
  {
    assert PREF_UPGRADED_TO_API_LEVEL_30 != PREF_FIRST_START;
    assert PREF_UPGRADED_TO_API_LEVEL_30 != PREF_USE_ROOT;
  }

  /** Label of the Next button for a pager position. */
  datatype NextLabel = Continue | Finish

  function LabelAt(position: nat): (l: NextLabel)
    ensures l == Finish <==> position == SLIDE_COUNT - 1
  {
    if position == SLIDE_COUNT - 1 then Finish else Continue
  }

  class FirstStartActivity {
    const prefs: SharedPreferences
    /** `viewPager.currentItem`. */
    var current: nat
    var backVisible: bool
    var nextLabel: NextLabel
    /** The wizard layout has been inflated. */
    var shown: bool
    /** `startApp()` has run: the main screen was started and this activity finished. */
    var started: bool

    ghost predicate Valid()
      reads this
    {
      current < SLIDE_COUNT
    }

    constructor (prefs: SharedPreferences)
      ensures this.prefs == prefs && Valid()
      ensures current == 0 && !backVisible && nextLabel == Continue && !shown && !started
    {
      this.prefs := prefs;
      current := 0;
      backVisible := false;
      nextLabel := Continue;
      shown := false;
      started := false;
    }

    /** `isFirstStart`: the stored flag, true when absent. */
    function IsFirstStart(): bool
      reads this, prefs
    {
      prefs.GetBoolean(PREF_FIRST_START, true)
    }

    /**
     * `upgradedToApiLevel30()`: true when the flag is stored; on first start the flag is
     * written and true returned; otherwise false and nothing written.
     */
    method UpgradedToApiLevel30() returns (upgraded: bool)
      modifies prefs
      ensures upgraded == UpgradedValue(old(prefs.bools))
      ensures prefs.bools == AfterUpgradeCheck(old(prefs.bools))
      ensures prefs.strings == old(prefs.strings) && prefs.stringSets == old(prefs.stringSets)
    {
      if prefs.GetBoolean(PREF_UPGRADED_TO_API_LEVEL_30, false) {
        return true;
      }
      if prefs.GetBoolean(PREF_FIRST_START, true) {
        prefs.PutBoolean(PREF_UPGRADED_TO_API_LEVEL_30, true);
        return true;
      }
      return false;
    }

    /** `shouldSkipSlide(slide)`: the skip rule, asked of the platform and the preferences. */
    method ShouldSkipSlide(slide: Slide, perms: Permissions) returns (skip: bool)
      modifies prefs
      ensures skip == Skipped(ContextOf(old(prefs.bools), perms), slide)
      ensures prefs.bools == if slide == ApiLevel30 then AfterUpgradeCheck(old(prefs.bools)) else old(prefs.bools)
      ensures prefs.strings == old(prefs.strings) && prefs.stringSets == old(prefs.stringSets)
    {
      match slide
      case Intro => skip := !IsFirstStart();
      case Storage => skip := perms.storage;
      case Location => skip := perms.location;
      case ApiLevel30 =>
        var upgraded := UpgradedToApiLevel30();
        skip := upgraded || prefs.GetBoolean(PREF_USE_ROOT, false);
        AfterUpgradeCheckKeepsContext(old(prefs.bools), perms);
      case Notification => skip := NotificationGranted(perms);
    }

    /** Moving the pager fires the page-change listener, which relabels the Next button. */
    method SetCurrentItem(position: nat)
      requires position < SLIDE_COUNT
      modifies this
      ensures current == position && nextLabel == LabelAt(position)
      ensures backVisible == old(backVisible) && shown == old(shown) && started == old(started)
    {
      current := position;
      nextLabel := LabelAt(position);
    }

    /** `startApp()`: launches the main screen and finishes this activity. */
    method StartApp()
      modifies this
      ensures started
      ensures current == old(current) && backVisible == old(backVisible)
      ensures nextLabel == old(nextLabel) && shown == old(shown)
    {
      started := true;
    }

    /**
     * `onBtnBackClick()`: one slide back when there is one, without consulting the skip
     * rules; reaching the first slide hides the back button.
     */
    method OnBtnBackClick()
      requires Valid()
      modifies this
      ensures Valid()
      ensures old(current) > 0 ==> current == old(current) - 1 && nextLabel == LabelAt(current)
      ensures old(current) > 0 ==> backVisible == (old(backVisible) && current != 0)
      ensures old(current) == 0 ==> current == 0 && backVisible == old(backVisible) && nextLabel == old(nextLabel)
      ensures shown == old(shown) && started == old(started)
    {
      var previous := current as int - 1;
      if previous >= 0 {
        SetCurrentItem(previous);
        if previous == 0 {
          backVisible := false;
        }
      }
    }

    /**
     * `onBtnNextClick()`. When the gate of the current slide refuses, nothing changes.
     * Otherwise the pager moves to `NextTarget` and the back button shows, or, when every
     * later slide is skipped, first start is cleared and the app started. The scan asks
     * `upgradedToApiLevel30()` when it meets the API_LEVEL_30 slide, which on first start
     * stores the upgrade flag.
     */
    method OnBtnNextClick(perms: Permissions)
      requires Valid()
      modifies this, prefs
      ensures Valid()
      ensures var b0 := old(prefs.bools);
              var ctx := ContextOf(b0, perms);
              var from := old(current);
              var b1 := if ScanChecksUpgrade(ctx, from) then AfterUpgradeCheck(b0) else b0;
              if !MayAdvance(ctx, SLIDES[from]) then
                current == from && started == old(started) && backVisible == old(backVisible) &&
                nextLabel == old(nextLabel) && prefs.bools == b0
              else match NextTarget(ctx, from)
                case Some(j) =>
                  current == j && backVisible && nextLabel == LabelAt(j) &&
                  started == old(started) && prefs.bools == b1
                case None =>
                  current == from && started && backVisible == old(backVisible) &&
                  nextLabel == old(nextLabel) && prefs.bools == b1[PREF_FIRST_START := false]
      ensures prefs.strings == old(prefs.strings) && prefs.stringSets == old(prefs.stringSets)
      ensures shown == old(shown)
    {
      ghost var b0 := prefs.bools;
      ghost var ctx := ContextOf(b0, perms);
      ghost var from := current;
      AfterUpgradeCheckKeepsContext(b0, perms);
      var slide := SLIDES[current];
      if slide == Storage {
        if !perms.storage {
          return;
        }
      } else if slide == ApiLevel30 {
        var upgraded := UpgradedToApiLevel30();
        if !upgraded {
          return;
        }
      }
      var next := current + 1;
      while next < SLIDE_COUNT
        invariant from < next <= SLIDE_COUNT && current == from
        invariant forall j :: from < j < next ==> Skipped(ctx, SLIDES[j])
        invariant prefs.bools == if from == API_SLIDE_INDEX || from < API_SLIDE_INDEX < next then AfterUpgradeCheck(b0) else b0
        invariant prefs.strings == old(prefs.strings) && prefs.stringSets == old(prefs.stringSets)
        invariant backVisible == old(backVisible) && nextLabel == old(nextLabel)
        invariant shown == old(shown) && started == old(started)
      {
        var skip := ShouldSkipSlide(SLIDES[next], perms);
        if !skip {
          SetCurrentItem(next);
          backVisible := true;
          break;
        }
        next := next + 1;
      }
      if next == SLIDE_COUNT {
        prefs.PutBoolean(PREF_FIRST_START, false);
        StartApp();
      }
    }

    /**
     * The reset button on the API_LEVEL_30 slide: `upgradeToApiLevel30()` stores the
     * upgrade flag (the database deletion is not modelled), then Next is pressed.
     */
    method OnResetDatabaseClick(perms: Permissions)
      requires Valid()
      modifies this, prefs
      ensures Valid()
      ensures Lookup(prefs.bools, PREF_UPGRADED_TO_API_LEVEL_30, false)
      ensures var b := old(prefs.bools)[PREF_UPGRADED_TO_API_LEVEL_30 := true];
              var ctx := ContextOf(b, perms);
              SLIDES[old(current)] == ApiLevel30 ==>
                match NextTarget(ctx, old(current))
                case Some(j) =>
                  current == j && backVisible && nextLabel == LabelAt(j) &&
                  started == old(started) && prefs.bools == b
                case None =>
                  current == old(current) && started && backVisible == old(backVisible) &&
                  nextLabel == old(nextLabel) && prefs.bools == b[PREF_FIRST_START := false]
      ensures prefs.strings == old(prefs.strings) && prefs.stringSets == old(prefs.stringSets)
      ensures shown == old(shown)
    {
      prefs.PutBoolean(PREF_UPGRADED_TO_API_LEVEL_30, true);
      ghost var b := prefs.bools;
      AfterUpgradeCheckKeepsContext(b, perms);
      OnBtnNextClick(perms);
      assert PREF_UPGRADED_TO_API_LEVEL_30 != PREF_FIRST_START;
    }

    /**
     * `onCreate()`. The wizard is bypassed, and the app started at once, when it is not the
     * first start, storage is granted and the device is upgraded. Otherwise the wizard is
     * shown on its first slide, and when it is not the first start the intro is left by one
     * press of Next.
     */
    method OnCreate(perms: Permissions)
      requires Valid() && current == 0 && !started && !shown
      modifies this, prefs
      ensures Valid()
      ensures var b0 := old(prefs.bools);
              var bypass := !Lookup(b0, PREF_FIRST_START, true) && perms.storage && UpgradedValue(b0);
              (bypass ==> started && !shown && prefs.bools == b0) &&
              (!bypass ==> shown) &&
              (!bypass && Lookup(b0, PREF_FIRST_START, true) ==> current == 0 && !started && prefs.bools == b0) &&
              (!bypass && !Lookup(b0, PREF_FIRST_START, true) ==>
                 match NextTarget(ContextOf(b0, perms), 0)
                 case Some(j) => current == j && backVisible && nextLabel == LabelAt(j) && !started
                 case None => started)
      ensures prefs.bools == old(prefs.bools)
      ensures prefs.strings == old(prefs.strings) && prefs.stringSets == old(prefs.stringSets)
    {
      ghost var b0 := prefs.bools;
      if !IsFirstStart() && perms.storage {
        var upgraded := UpgradedToApiLevel30();
        if upgraded {
          StartApp();
          return;
        }
      }
      shown := true;
      if !IsFirstStart() {
        OnBtnNextClick(perms);
      }
    }
  }
}
