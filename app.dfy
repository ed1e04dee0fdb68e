/** The application controller: the in-memory state slots of the CRM shell
    and the handlers the screens call to change them. The controller keeps its
    own copies of the collections, seeded from the mock data; it never talks
    to the store. */
module AppState {
  import opened Types
  import opened Seqs

  /** The navigation entries of the sidebar, in display order. */
  datatype NavEntry = NavEntry(tab: NavItem, caption: string)

  const NavItems: seq<NavEntry> := [
    NavEntry(DashboardTab, "Dashboard"),
    NavEntry(ContactsTab, "Contacts"),
    NavEntry(DealsTab, "Deals"),
    NavEntry(TasksTab, "Tasks"),
    NavEntry(AuditTab, "Audit Log")
  ]

  /** `items.find(i => i.id === tab)?.label`. */
  function FindLabel(items: seq<NavEntry>, tab: NavItem): (r: Option<string>)
    ensures r == None <==> forall j :: 0 <= j < |items| ==> items[j].tab != tab
    ensures r.Some? ==> exists j :: 0 <= j < |items| && items[j] == NavEntry(tab, r.value) &&
                                   forall k :: 0 <= k < j ==> items[k].tab != tab
    decreases |items|
  {
    if |items| == 0 then None
    else if items[0].tab == tab then Some(items[0].caption)
    else
      var r := FindLabel(items[1..], tab);
      assert forall k :: 1 <= k < |items| ==> items[k] == items[1..][k - 1];
      r
  }

  /** The header title: "My Profile" on the profile screen, otherwise the
      label of the tab's navigation entry; the settings tab has no entry and
      so no title. */
  function HeaderTitle(tab: NavItem): (r: Option<string>)
    ensures tab == ProfileTab ==> r == Some("My Profile")
    ensures r == None <==> tab == SettingsTab
    ensures tab != ProfileTab && r.Some? ==> NavEntry(tab, r.value) in NavItems
  {
    if tab == ProfileTab then Some("My Profile") else FindLabel(NavItems, tab)
  }

  /** A sidebar entry's tab is titled with that entry's caption. */
  lemma NavTitle(e: NavEntry)
    requires e in NavItems
    ensures HeaderTitle(e.tab) == Some(e.caption)
  {
    NavItemsShape();
    var i :| 0 <= i < |NavItems| && NavItems[i] == e;
    var r := FindLabel(NavItems, e.tab);
    var j :| 0 <= j < |NavItems| && NavItems[j] == NavEntry(e.tab, r.value) &&
             forall k :: 0 <= k < j ==> NavItems[k].tab != e.tab;
    assert i == j;
  }

  /** The five sidebar entries are five different tabs; neither settings nor
      the profile screen is among them. */
  lemma NavItemsShape()
    ensures |NavItems| == 5
    ensures forall i, j :: 0 <= i < j < |NavItems| ==> NavItems[i].tab != NavItems[j].tab
    ensures forall j :: 0 <= j < |NavItems| ==> NavItems[j].tab != SettingsTab && NavItems[j].tab != ProfileTab
  {
  }

  function IsUnread(n: Notification): bool { !n.read }

  /** `notifications.filter(n => !n.read).length`. */
  function UnreadCount(ns: seq<Notification>): (r: nat)
    ensures r <= |ns|
    ensures r == 0 <==> forall j :: 0 <= j < |ns| ==> ns[j].read
  {
    var u := Filter(ns, IsUnread);
    assert forall j :: 0 <= j < |ns| && !ns[j].read ==> ns[j] in u;
    assert |u| > 0 ==> u[0] in ns && !u[0].read;
    |u|
  }

  class App {
    var activeTab: NavItem
    var currentUser: UserProfile
    var contacts: seq<Contact>
    var deals: seq<Deal>
    var tasks: seq<Task>
    /** The activity log is read-only state: no handler changes it. */
    const activities: seq<ActivityLog>
    var notifications: seq<Notification>

    /** The first render: every slot holds its mock data and the dashboard is shown. */
    constructor (seed: Seed)
      ensures activeTab == DashboardTab && currentUser == seed.user
      ensures contacts == seed.contacts && deals == seed.deals && tasks == seed.tasks
      ensures activities == seed.activities && notifications == seed.notifications
    {
      activeTab := DashboardTab;
      currentUser := seed.user;
      contacts := seed.contacts;
      deals := seed.deals;
      tasks := seed.tasks;
      activities := seed.activities;
      notifications := seed.notifications;
    }

    /** The badge count: how many notifications are unread. */
    function Unread(): (r: nat)
      reads this
      ensures r == |Filter(notifications, IsUnread)|
      ensures r <= |notifications|
      ensures r == 0 <==> forall j :: 0 <= j < |notifications| ==> notifications[j].read
    {
      UnreadCount(notifications)
    }

    /** `handleUpdateContact`: every contact with the updated id is replaced. */
    method HandleUpdateContact(updated: Contact)
      modifies this
      ensures contacts == UpdateAll(old(contacts), ContactId, updated.id, ReplaceWith(updated))
      ensures activeTab == old(activeTab) && currentUser == old(currentUser)
      ensures deals == old(deals) && tasks == old(tasks) && notifications == old(notifications)
    {
      contacts := UpdateAll(contacts, ContactId, updated.id, ReplaceWith(updated));
    }

    /** `handleUpdateDeal`: every deal with the updated id is replaced. */
    method HandleUpdateDeal(updated: Deal)
      modifies this
      ensures deals == UpdateAll(old(deals), DealId, updated.id, ReplaceWith(updated))
      ensures activeTab == old(activeTab) && currentUser == old(currentUser)
      ensures contacts == old(contacts) && tasks == old(tasks) && notifications == old(notifications)
    {
      deals := UpdateAll(deals, DealId, updated.id, ReplaceWith(updated));
    }

    /** `handleUpdateProfile`. */
    method HandleUpdateProfile(updatedUser: UserProfile)
      modifies this
      ensures currentUser == updatedUser
      ensures activeTab == old(activeTab) && contacts == old(contacts)
      ensures deals == old(deals) && tasks == old(tasks) && notifications == old(notifications)
    {
      currentUser := updatedUser;
    }

    /** `handleAddDeal`: a fresh deal at the top of the list, then the deals
        screen. `id` stands for the timestamp-based id and `today` for the
        current date. */
    method HandleAddDeal(id: string, today: string)
      modifies this
      ensures deals == [NewDeal(id, today, old(contacts))] + old(deals)
      ensures activeTab == DealsTab
      ensures currentUser == old(currentUser) && contacts == old(contacts)
      ensures tasks == old(tasks) && notifications == old(notifications)
    {
      var contactId := if |contacts| > 0 then contacts[0].id else "";
      var newDeal := Deal(id, "New Deal Opportunity", 0, NewLead, contactId, today, 10);
      deals := [newDeal] + deals;
      activeTab := DealsTab;
    }

    /** `handleToggleTask`: flip `completed` on every task with `id`. */
    method HandleToggleTask(id: string)
      modifies this
      ensures tasks == UpdateAll(old(tasks), TaskId, id, Toggled)
      ensures activeTab == old(activeTab) && currentUser == old(currentUser)
      ensures contacts == old(contacts) && deals == old(deals) && notifications == old(notifications)
    {
      tasks := UpdateAll(tasks, TaskId, id, Toggled);
    }

    /** `handleAddTask`: a new open task at the top of the list. */
    method HandleAddTask(title: string, date: string, id: string)
      modifies this
      ensures tasks == [Task(id, title, date, false, None)] + old(tasks)
      ensures activeTab == old(activeTab) && currentUser == old(currentUser)
      ensures contacts == old(contacts) && deals == old(deals) && notifications == old(notifications)
    {
      var newTask := Task(id, title, date, false, None);
      tasks := [newTask] + tasks;
    }

    /** `handleMarkAllRead`: afterwards nothing is unread. */
    method HandleMarkAllRead()
      modifies this
      ensures notifications == AllMarkedRead(old(notifications))
      ensures Unread() == 0
      ensures activeTab == old(activeTab) && currentUser == old(currentUser)
      ensures contacts == old(contacts) && deals == old(deals) && tasks == old(tasks)
    {
      notifications := AllMarkedRead(notifications);
    }

    /** `handleNotificationClick`: mark every notification with `id` read;
        the unread count never grows. */
    method HandleNotificationClick(id: string)
      modifies this
      ensures notifications == UpdateAll(old(notifications), NotificationId, id, MarkedRead)
      ensures Unread() <= old(Unread())
      ensures activeTab == old(activeTab) && currentUser == old(currentUser)
      ensures contacts == old(contacts) && deals == old(deals) && tasks == old(tasks)
    {
      ClickNeverRaisesUnread(notifications, id);
      notifications := UpdateAll(notifications, NotificationId, id, MarkedRead);
    }

    /** A sidebar or mobile-menu click: `setActiveTab(item.id)` for one of the
        navigation entries (`NavTitle` gives the header it then shows). */
    method SelectTab(tab: NavItem)
      requires exists e :: e in NavItems && e.tab == tab
      modifies this
      ensures activeTab == tab
      ensures currentUser == old(currentUser) && contacts == old(contacts)
      ensures deals == old(deals) && tasks == old(tasks) && notifications == old(notifications)
    {
      activeTab := tab;
    }

    /** "My Profile" in the profile menu. */
    method OpenProfile()
      modifies this
      ensures activeTab == ProfileTab
      ensures currentUser == old(currentUser) && contacts == old(contacts)
      ensures deals == old(deals) && tasks == old(tasks) && notifications == old(notifications)
    {
      activeTab := ProfileTab;
    }
  }

  /** The deal `handleAddDeal` creates: fixed title, amount, stage and
      probability, linked to the first contact (or to nobody). */
  function NewDeal(id: string, today: string, contacts: seq<Contact>): (d: Deal)
    ensures d.id == id && d.closeDate == today
    ensures d.title == "New Deal Opportunity" && d.amount == 0
    ensures d.stage == NewLead && d.probability == 10 && ValidProbability(d)
    ensures |contacts| > 0 ==> d.contactId == contacts[0].id
    ensures |contacts| == 0 ==> d.contactId == ""
  {
    Deal(id, "New Deal Opportunity", 0, NewLead, if |contacts| > 0 then contacts[0].id else "", today, 10)
  }

  // ---- properties of the handlers ----

  /** Marking everything read leaves no unread notification, and doing it
      again changes nothing. */
  lemma {:induction false} MarkAllReadClearsUnread(ns: seq<Notification>)
    ensures UnreadCount(AllMarkedRead(ns)) == 0
    ensures AllMarkedRead(AllMarkedRead(ns)) == AllMarkedRead(ns)
  {
    AllMarkedReadIdempotent(ns);
  }

  /** Clicking a notification never raises the unread count, and clicking an
      unread one lowers it. */
  lemma {:induction false} ClickNeverRaisesUnread(ns: seq<Notification>, id: string)
    ensures UnreadCount(UpdateAll(ns, NotificationId, id, MarkedRead)) <= UnreadCount(ns)
    ensures (exists j :: 0 <= j < |ns| && ns[j].id == id && !ns[j].read) ==>
              UnreadCount(UpdateAll(ns, NotificationId, id, MarkedRead)) < UnreadCount(ns)
  {
    FilterUpdateAllShrinks(ns, NotificationId, id, MarkedRead, IsUnread);
  }

  /** Toggling the same task twice restores the task list. */
  lemma {:induction false} ToggleTaskTwice(tasks: seq<Task>, id: string)
    ensures UpdateAll(UpdateAll(tasks, TaskId, id, Toggled), TaskId, id, Toggled) == tasks
  {
    UpdateAllTwice(tasks, TaskId, id, Toggled);
  }

  /** With unique ids the controller's "replace every match" and the store's
      "replace the first match" produce the same list, for every handler that
      mirrors a store operation. */
  lemma ControllerAgreesWithStore(contacts: seq<Contact>, c: Contact, deals: seq<Deal>, d: Deal,
                                  tasks: seq<Task>, id: string, ns: seq<Notification>, nid: string)
    requires UniqueKeys(contacts, ContactId) && UniqueKeys(deals, DealId)
    requires UniqueKeys(tasks, TaskId) && UniqueKeys(ns, NotificationId)
    ensures UpdateAll(contacts, ContactId, c.id, ReplaceWith(c)) == UpdateFirst(contacts, ContactId, c.id, ReplaceWith(c))
    ensures UpdateAll(deals, DealId, d.id, ReplaceWith(d)) == UpdateFirst(deals, DealId, d.id, ReplaceWith(d))
    ensures UpdateAll(tasks, TaskId, id, Toggled) == UpdateFirst(tasks, TaskId, id, Toggled)
    ensures UpdateAll(ns, NotificationId, nid, MarkedRead) == UpdateFirst(ns, NotificationId, nid, MarkedRead)
  {
    UpdateFirstIsUpdateAll(contacts, ContactId, c.id, ReplaceWith(c));
    UpdateFirstIsUpdateAll(deals, DealId, d.id, ReplaceWith(d));
    UpdateFirstIsUpdateAll(tasks, TaskId, id, Toggled);
    UpdateFirstIsUpdateAll(ns, NotificationId, nid, MarkedRead);
  }

  /** The handlers that change a record by id keep every id, so they keep
      ids unique. */
  lemma {:induction false} HandlersKeepIdsUnique(contacts: seq<Contact>, c: Contact, deals: seq<Deal>, d: Deal,
                                                 tasks: seq<Task>, id: string, ns: seq<Notification>, nid: string)
    ensures UniqueKeys(contacts, ContactId) ==> UniqueKeys(UpdateAll(contacts, ContactId, c.id, ReplaceWith(c)), ContactId)
    ensures UniqueKeys(deals, DealId) ==> UniqueKeys(UpdateAll(deals, DealId, d.id, ReplaceWith(d)), DealId)
    ensures UniqueKeys(tasks, TaskId) ==> UniqueKeys(UpdateAll(tasks, TaskId, id, Toggled), TaskId)
    ensures UniqueKeys(ns, NotificationId) ==> UniqueKeys(UpdateAll(ns, NotificationId, nid, MarkedRead), NotificationId)
  {
    UpdateAllKeepsKeys(contacts, ContactId, c.id, ReplaceWith(c));
    UpdateAllKeepsKeys(deals, DealId, d.id, ReplaceWith(d));
    UpdateAllKeepsKeys(tasks, TaskId, id, Toggled);
    UpdateAllKeepsKeys(ns, NotificationId, nid, MarkedRead);
  }
}
