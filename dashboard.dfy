/** The dashboard of the plain-JavaScript client (public/js/dashboard.js): a
    recent-activity list capped at five entries, newest first, and the switch
    between the dashboard and the e-mail composer sections. */
module Dashboard {

  datatype Activity = Activity(icon: string, message: string, time: string)

  /** The activity list keeps at most this many entries. */
  const MaxActivities: nat := 5

  /** The entry recorded on each sign-in. */
  const LoginActivity := Activity("\U{1F510}", "Successfully logged in", "Just now")

  /** The first `MaxActivities` entries of a list, in order. */
  function Recent(items: seq<Activity>): (r: seq<Activity>)
    ensures |r| == (if |items| <= MaxActivities then |items| else MaxActivities)
    ensures r <= items
  {
    if |items| <= MaxActivities then items else items[..MaxActivities]
  }

  /** Adding an entry to a list of at most `MaxActivities`: the new entry
      comes first, the length grows by one up to the cap, and the older
      entries that remain are a prefix of the old list in the old order (so
      only entries at the tail are dropped). */
  lemma {:induction false} RecentAfterAdd(x: Activity, items: seq<Activity>)
    ensures var r := Recent([x] + items);
      && |r| == (if |items| + 1 < MaxActivities then |items| + 1 else MaxActivities)
      && r[0] == x
      && r[1..] == items[..|r| - 1]
  {
    var r := Recent([x] + items);
    assert r == ([x] + items)[..|r|];
    assert ([x] + items)[..|r|][1..] == items[..|r| - 1];
  }

  /** The dashboard page's sections and activity list. */
  class Workspace {
    var dashboardHidden: bool      // dashboard-section has class `hidden`
    var chatHidden: bool           // chat-section has class `hidden`
    var dashboardTabActive: bool   // dashboard-btn has class `active`
    var composeTabActive: bool     // compose-btn has class `active`
    var lastLogin: string          // text of last-login
    var activities: seq<Activity>  // children of activity-list, top first

    constructor (activities: seq<Activity>)
      ensures this.activities == activities
      ensures dashboardHidden && chatHidden && !dashboardTabActive && !composeTabActive && lastLogin == ""
    {
      this.activities := activities;
      dashboardHidden, chatHidden := true, true;
      dashboardTabActive, composeTabActive := false, false;
      lastLogin := "";
    }

    /** addActivity: put the new entry at the top, then remove entries from the
        bottom while more than `MaxActivities` remain. */
    method AddActivity(icon: string, message: string, time: string)
      modifies this`activities
      ensures activities == Recent([Activity(icon, message, time)] + old(activities))
    {
      var added := [Activity(icon, message, time)] + activities;
      activities := added;
      while |activities| > MaxActivities
        invariant |activities| <= |added|
        invariant activities == added[..|activities|]
        invariant |activities| >= MaxActivities || activities == added
        decreases |activities|
      {
        activities := activities[..|activities| - 1];
      }
    }

    /** updateDashboardInfo: show the sign-in time and record one sign-in
        activity. The clock reading is a parameter. */
    method UpdateDashboardInfo(now: string)
      modifies this`lastLogin, this`activities
      ensures lastLogin == now
      ensures activities == Recent([LoginActivity] + old(activities))
    {
      lastLogin := now;
      AddActivity(LoginActivity.icon, LoginActivity.message, LoginActivity.time);
    }

    /** showDashboard: the dashboard section is shown, the composer hidden,
        and the dashboard tab is the active one, whatever the state before. */
    method ShowDashboard()
      modifies this`dashboardHidden, this`chatHidden, this`dashboardTabActive, this`composeTabActive
      ensures !dashboardHidden && chatHidden && dashboardTabActive && !composeTabActive
    {
      dashboardHidden := false;
      chatHidden := true;
      dashboardTabActive := true;
      composeTabActive := false;
    }

    /** showEmailComposer: the exact mirror of `ShowDashboard`. */
    method ShowEmailComposer()
      modifies this`dashboardHidden, this`chatHidden, this`dashboardTabActive, this`composeTabActive
      ensures dashboardHidden && !chatHidden && !dashboardTabActive && composeTabActive
    {
      dashboardHidden := true;
      chatHidden := false;
      dashboardTabActive := false;
      composeTabActive := true;
    }
  }
}
