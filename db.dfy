/** The record store: six named slots of the browser's key-value storage, each
    holding one serialised collection (or, for the user, one profile).
    Serialisation is taken as the identity, so a slot holds the parsed value,
    and the store is the map from slot names to such values. */
module Db {
  import opened Types
  import opened Seqs

  /** The six storage slots. */
  datatype Slot = ContactsKey | DealsKey | TasksKey | ActivitiesKey | NotificationsKey | UserKey

  /** The storage key each slot is kept under. */
  function KeyName(k: Slot): string {
    match k
    case ContactsKey => "nexus_contacts"
    case DealsKey => "nexus_deals"
    case TasksKey => "nexus_tasks"
    case ActivitiesKey => "nexus_activities"
    case NotificationsKey => "nexus_notifications"
    case UserKey => "nexus_user"
  }

  /** The six slots live under six different storage keys. */
  lemma KeyNamesDistinct(k: Slot, l: Slot)
    requires KeyName(k) == KeyName(l)
    ensures k == l
  {
  }

  const Keys: set<Slot> :=
    {ContactsKey, DealsKey, TasksKey, ActivitiesKey, NotificationsKey, UserKey}

  /** What a slot holds, once parsed. */
  datatype Value =
    | ContactList(contacts: seq<Contact>)
    | DealList(deals: seq<Deal>)
    | TaskList(tasks: seq<Task>)
    | ActivityList(activities: seq<ActivityLog>)
    | NotificationList(notifications: seq<Notification>)
    | Profile(user: UserProfile)

  function SeedValue(seed: Seed, key: Slot): (v: Value)
    ensures WellTypedAt(key, v)
  {
    match key
    case ContactsKey => ContactList(seed.contacts)
    case DealsKey => DealList(seed.deals)
    case TasksKey => TaskList(seed.tasks)
    case ActivitiesKey => ActivityList(seed.activities)
    case NotificationsKey => NotificationList(seed.notifications)
    case UserKey => Profile(seed.user)
  }

  /** Each of the six slots holds the kind of value the store writes there. */
  predicate WellTypedAt(key: Slot, v: Value) {
    && (key == ContactsKey ==> v.ContactList?)
    && (key == DealsKey ==> v.DealList?)
    && (key == TasksKey ==> v.TaskList?)
    && (key == ActivitiesKey ==> v.ActivityList?)
    && (key == NotificationsKey ==> v.NotificationList?)
    && (key == UserKey ==> v.Profile?)
  }

  predicate WellTyped(m: map<Slot, Value>) {
    forall k :: k in m ==> WellTypedAt(k, m[k])
  }

  /** The specification of `init`: every one of the six slots that is missing
      receives its seed; every slot that is present keeps its value. */
  function Seeded(m: map<Slot, Value>, seed: Seed): (r: map<Slot, Value>)
    ensures r.Keys == m.Keys + Keys
    ensures forall k :: k in m ==> r[k] == m[k]
    ensures forall k :: k in Keys && k !in m ==> r[k] == SeedValue(seed, k)
  {
    map k | k in m.Keys + Keys :: if k in m then m[k] else SeedValue(seed, k)
  }

  /** Seeding keeps every slot holding the kind of value it should. */
  lemma SeededWellTyped(m: map<Slot, Value>, seed: Seed)
    requires WellTyped(m)
    ensures WellTyped(Seeded(m, seed))
  {
  }

  /** Seeding one slot only if it is missing. */
  function SeedSlot(m: map<Slot, Value>, key: Slot, v: Value): (r: map<Slot, Value>)
    ensures r.Keys == m.Keys + {key}
    ensures forall k :: k in m ==> r[k] == m[k]
    ensures key !in m ==> r[key] == v
  {
    if key in m then m else m[key := v]
  }

  /** `r` is `m` after the "seed if missing" step has run for the slots in `done`. */
  predicate PartlySeeded(m: map<Slot, Value>, r: map<Slot, Value>, seed: Seed, done: set<Slot>) {
    && r.Keys == m.Keys + done
    && (forall k :: k in m ==> r[k] == m[k])
    && (forall k :: k in done && k !in m ==> r[k] == SeedValue(seed, k))
  }

  /** One more "seed if missing" step extends the set of handled slots. */
  lemma SeedStep(m: map<Slot, Value>, r: map<Slot, Value>, seed: Seed, done: set<Slot>, key: Slot, next: set<Slot>)
    requires PartlySeeded(m, r, seed, done)
    requires next == done + {key}
    ensures PartlySeeded(m, SeedSlot(r, key, SeedValue(seed, key)), seed, next)
  {
  }

  /** Once all six slots are handled, the result is the specification of `init`. */
  lemma PartlySeededAll(m: map<Slot, Value>, r: map<Slot, Value>, seed: Seed)
    requires PartlySeeded(m, r, seed, Keys)
    ensures r == Seeded(m, seed)
  {
    var s := Seeded(m, seed);
    forall k | k in r
      ensures k in s && r[k] == s[k]
    {
      if k !in m {
        assert k in Keys;
        assert r[k] == SeedValue(seed, k);
      }
    }
    assert forall k :: k in s ==> k in r;
  }

  // The slots handled after each line of `init`.
  const Done1: set<Slot> := {ContactsKey}
  const Done2: set<Slot> := Done1 + {DealsKey}
  const Done3: set<Slot> := Done2 + {TasksKey}
  const Done4: set<Slot> := Done3 + {ActivitiesKey}
  const Done5: set<Slot> := Done4 + {NotificationsKey}
  const Done6: set<Slot> := Done5 + {UserKey}

  lemma Done6IsKeys()
    ensures Done6 == Keys
  {
  }

  // The slots after each line of `init`.
  function After1(m: map<Slot, Value>, seed: Seed): map<Slot, Value> {
    SeedSlot(m, ContactsKey, SeedValue(seed, ContactsKey))
  }
  function After2(m: map<Slot, Value>, seed: Seed): map<Slot, Value> {
    SeedSlot(After1(m, seed), DealsKey, SeedValue(seed, DealsKey))
  }
  function After3(m: map<Slot, Value>, seed: Seed): map<Slot, Value> {
    SeedSlot(After2(m, seed), TasksKey, SeedValue(seed, TasksKey))
  }
  function After4(m: map<Slot, Value>, seed: Seed): map<Slot, Value> {
    SeedSlot(After3(m, seed), ActivitiesKey, SeedValue(seed, ActivitiesKey))
  }
  function After5(m: map<Slot, Value>, seed: Seed): map<Slot, Value> {
    SeedSlot(After4(m, seed), NotificationsKey, SeedValue(seed, NotificationsKey))
  }
  function After6(m: map<Slot, Value>, seed: Seed): map<Slot, Value> {
    SeedSlot(After5(m, seed), UserKey, SeedValue(seed, UserKey))
  }

  lemma Steps1(m: map<Slot, Value>, seed: Seed)
    ensures PartlySeeded(m, After1(m, seed), seed, Done1)
  {
    SeedStep(m, m, seed, {}, ContactsKey, Done1);
  }
  lemma Steps2(m: map<Slot, Value>, seed: Seed)
    ensures PartlySeeded(m, After2(m, seed), seed, Done2)
  {
    Steps1(m, seed);
    SeedStep(m, After1(m, seed), seed, Done1, DealsKey, Done2);
  }
  lemma Steps3(m: map<Slot, Value>, seed: Seed)
    ensures PartlySeeded(m, After3(m, seed), seed, Done3)
  {
    Steps2(m, seed);
    SeedStep(m, After2(m, seed), seed, Done2, TasksKey, Done3);
  }
  lemma Steps4(m: map<Slot, Value>, seed: Seed)
    ensures PartlySeeded(m, After4(m, seed), seed, Done4)
  {
    Steps3(m, seed);
    SeedStep(m, After3(m, seed), seed, Done3, ActivitiesKey, Done4);
  }
  lemma Steps5(m: map<Slot, Value>, seed: Seed)
    ensures PartlySeeded(m, After5(m, seed), seed, Done5)
  {
    Steps4(m, seed);
    SeedStep(m, After4(m, seed), seed, Done4, NotificationsKey, Done5);
  }
  lemma Steps6(m: map<Slot, Value>, seed: Seed)
    ensures PartlySeeded(m, After6(m, seed), seed, Done6)
  {
    Steps5(m, seed);
    SeedStep(m, After5(m, seed), seed, Done5, UserKey, Done6);
  }

  /** The six "seed if missing" steps of `init`, one after the other, meet its
      specification. */
  lemma SeededBySteps(m: map<Slot, Value>, seed: Seed)
    ensures Seeded(m, seed) == After6(m, seed)
  {
    Steps6(m, seed);
    Done6IsKeys();
    PartlySeededAll(m, After6(m, seed), seed);
  }

  /** A second `init` writes nothing. */
  lemma SeededIdempotent(m: map<Slot, Value>, seed: Seed)
    ensures Seeded(Seeded(m, seed), seed) == Seeded(m, seed)
  {
  }

  /** `init` leaves every slot present: the store is fully bootstrapped. */
  lemma SeededIsComplete(m: map<Slot, Value>, seed: Seed)
    ensures Keys <= Seeded(m, seed).Keys
    ensures m.Keys <= Keys ==> Seeded(m, seed).Keys == Keys
  {
  }

  class Store {
    const seed: Seed
    var slots: map<Slot, Value>

    ghost predicate Valid()
      reads this
    {
      WellTyped(slots)
    }

    /** A store over whatever the browser already holds. */
    constructor (seed: Seed, stored: map<Slot, Value>)
      requires WellTyped(stored)
      ensures Valid() && this.seed == seed && slots == stored
    {
      this.seed := seed;
      slots := stored;
    }

    /** `db.init()`: six independent "seed if missing" steps. A slot that holds
        an empty list is present (its text is "[]"), so it is not reseeded. */
    method Init()
      requires Valid()
      modifies this
      ensures Valid()
      ensures slots == Seeded(old(slots), seed)
    {
      ghost var m := slots;
      SeedIfMissing(ContactsKey);
      SeedIfMissing(DealsKey);
      SeedIfMissing(TasksKey);
      SeedIfMissing(ActivitiesKey);
      SeedIfMissing(NotificationsKey);
      SeedIfMissing(UserKey);
      SeededBySteps(m, seed);
      SeededWellTyped(m, seed);
    }

    /** One line of `init`: write the seed into `key` unless the slot is present. */
    method SeedIfMissing(key: Slot)
      requires Valid()
      modifies this
      ensures Valid()
      ensures slots == SeedSlot(old(slots), key, SeedValue(seed, key))
    {
      if key !in slots {
        slots := slots[key := SeedValue(seed, key)];
      }
    }

    // ---- reads: the stored list, or [] for a missing slot ----

    /** `contacts.getAll()`. */
    function Contacts(): (r: seq<Contact>)
      requires Valid()
      reads this
      ensures ContactsKey !in slots ==> r == []
      ensures ContactsKey in slots ==> slots[ContactsKey] == ContactList(r)
    {
      if ContactsKey in slots then slots[ContactsKey].contacts else []
    }

    /** `deals.getAll()`. */
    function Deals(): (r: seq<Deal>)
      requires Valid()
      reads this
      ensures DealsKey !in slots ==> r == []
      ensures DealsKey in slots ==> slots[DealsKey] == DealList(r)
    {
      if DealsKey in slots then slots[DealsKey].deals else []
    }

    /** `tasks.getAll()`. */
    function Tasks(): (r: seq<Task>)
      requires Valid()
      reads this
      ensures TasksKey !in slots ==> r == []
      ensures TasksKey in slots ==> slots[TasksKey] == TaskList(r)
    {
      if TasksKey in slots then slots[TasksKey].tasks else []
    }

    /** `activities.getAll()`. */
    function Activities(): (r: seq<ActivityLog>)
      requires Valid()
      reads this
      ensures ActivitiesKey !in slots ==> r == []
      ensures ActivitiesKey in slots ==> slots[ActivitiesKey] == ActivityList(r)
    {
      if ActivitiesKey in slots then slots[ActivitiesKey].activities else []
    }

    /** `notifications.getAll()`. */
    function Notifications(): (r: seq<Notification>)
      requires Valid()
      reads this
      ensures NotificationsKey !in slots ==> r == []
      ensures NotificationsKey in slots ==> slots[NotificationsKey] == NotificationList(r)
    {
      if NotificationsKey in slots then slots[NotificationsKey].notifications else []
    }

    /** `user.get()`: the stored profile, or the seed profile when the slot is missing. */
    function User(): (r: UserProfile)
      requires Valid()
      reads this
      ensures UserKey !in slots ==> r == seed.user
      ensures UserKey in slots ==> slots[UserKey] == Profile(r)
    {
      if UserKey in slots then slots[UserKey].user else seed.user
    }

    // ---- writes ----

    /** `contacts.update(c)`: overwrite the first contact with `c.id`; with no
        such contact nothing is written. */
    method UpdateContact(c: Contact)
      requires Valid()
      modifies this
      ensures Valid()
      ensures FirstIndex(old(Contacts()), ContactId, c.id) == -1 ==> slots == old(slots)
      ensures FirstIndex(old(Contacts()), ContactId, c.id) != -1 ==>
        slots == old(slots)[ContactsKey := ContactList(UpdateFirst(old(Contacts()), ContactId, c.id, ReplaceWith(c)))]
    {
      var contacts := Contacts();
      UpdateFirstByIndex(contacts, ContactId, c.id, ReplaceWith(c));
      var index := FirstIndex(contacts, ContactId, c.id);
      if index != -1 {
        contacts := contacts[index := c];
        slots := slots[ContactsKey := ContactList(contacts)];
      }
    }

    /** `deals.add(d)`: put `d` at the top. */
    method AddDeal(d: Deal)
      requires Valid()
      modifies this
      ensures Valid()
      ensures slots == old(slots)[DealsKey := DealList([d] + old(Deals()))]
    {
      var deals := Deals();
      deals := [d] + deals;
      slots := slots[DealsKey := DealList(deals)];
    }

    /** `deals.update(d)`: overwrite the first deal with `d.id`, if any. */
    method UpdateDeal(d: Deal)
      requires Valid()
      modifies this
      ensures Valid()
      ensures FirstIndex(old(Deals()), DealId, d.id) == -1 ==> slots == old(slots)
      ensures FirstIndex(old(Deals()), DealId, d.id) != -1 ==>
        slots == old(slots)[DealsKey := DealList(UpdateFirst(old(Deals()), DealId, d.id, ReplaceWith(d)))]
    {
      var deals := Deals();
      UpdateFirstByIndex(deals, DealId, d.id, ReplaceWith(d));
      var index := FirstIndex(deals, DealId, d.id);
      if index != -1 {
        deals := deals[index := d];
        slots := slots[DealsKey := DealList(deals)];
      }
    }

    /** `tasks.add(t)`: put `t` at the top. */
    method AddTask(t: Task)
      requires Valid()
      modifies this
      ensures Valid()
      ensures slots == old(slots)[TasksKey := TaskList([t] + old(Tasks()))]
    {
      var tasks := Tasks();
      tasks := [t] + tasks;
      slots := slots[TasksKey := TaskList(tasks)];
    }

    /** `tasks.update(t)`: overwrite the first task with `t.id`, if any. */
    method UpdateTask(t: Task)
      requires Valid()
      modifies this
      ensures Valid()
      ensures FirstIndex(old(Tasks()), TaskId, t.id) == -1 ==> slots == old(slots)
      ensures FirstIndex(old(Tasks()), TaskId, t.id) != -1 ==>
        slots == old(slots)[TasksKey := TaskList(UpdateFirst(old(Tasks()), TaskId, t.id, ReplaceWith(t)))]
    {
      var tasks := Tasks();
      UpdateFirstByIndex(tasks, TaskId, t.id, ReplaceWith(t));
      var index := FirstIndex(tasks, TaskId, t.id);
      if index != -1 {
        tasks := tasks[index := t];
        slots := slots[TasksKey := TaskList(tasks)];
      }
    }

    /** `tasks.toggle(id)`: flip `completed` on the first task with `id`, if any. */
    method ToggleTask(id: string)
      requires Valid()
      modifies this
      ensures Valid()
      ensures FirstIndex(old(Tasks()), TaskId, id) == -1 ==> slots == old(slots)
      ensures FirstIndex(old(Tasks()), TaskId, id) != -1 ==>
        slots == old(slots)[TasksKey := TaskList(UpdateFirst(old(Tasks()), TaskId, id, Toggled))]
    {
      var tasks := Tasks();
      UpdateFirstByIndex(tasks, TaskId, id, Toggled);
      var index := FirstIndex(tasks, TaskId, id);
      if index != -1 {
        tasks := tasks[index := tasks[index].(completed := !tasks[index].completed)];
        slots := slots[TasksKey := TaskList(tasks)];
      }
    }

    /** `activities.add(a)`: put `a` at the top. */
    method AddActivity(a: ActivityLog)
      requires Valid()
      modifies this
      ensures Valid()
      ensures slots == old(slots)[ActivitiesKey := ActivityList([a] + old(Activities()))]
    {
      var logs := Activities();
      logs := [a] + logs;
      slots := slots[ActivitiesKey := ActivityList(logs)];
    }

    /** `notifications.markRead(id)`: set `read` on the first notification with `id`, if any. */
    method MarkRead(id: string)
      requires Valid()
      modifies this
      ensures Valid()
      ensures FirstIndex(old(Notifications()), NotificationId, id) == -1 ==> slots == old(slots)
      ensures FirstIndex(old(Notifications()), NotificationId, id) != -1 ==>
        slots == old(slots)[NotificationsKey := NotificationList(UpdateFirst(old(Notifications()), NotificationId, id, MarkedRead))]
    {
      var notes := Notifications();
      UpdateFirstByIndex(notes, NotificationId, id, MarkedRead);
      var index := FirstIndex(notes, NotificationId, id);
      if index != -1 {
        notes := notes[index := notes[index].(read := true)];
        slots := slots[NotificationsKey := NotificationList(notes)];
      }
    }

    /** `notifications.markAllRead()`: always writes, so a missing slot ends up
        holding an empty list. */
    method MarkAllRead()
      requires Valid()
      modifies this
      ensures Valid()
      ensures slots == old(slots)[NotificationsKey := NotificationList(AllMarkedRead(old(Notifications())))]
    {
      var notes := Notifications();
      var updated := AllMarkedRead(notes);
      slots := slots[NotificationsKey := NotificationList(updated)];
    }

    /** `user.update(u)`: overwrite the profile. */
    method UpdateUser(u: UserProfile)
      requires Valid()
      modifies this
      ensures Valid()
      ensures slots == old(slots)[UserKey := Profile(u)]
    {
      slots := slots[UserKey := Profile(u)];
    }
  }

  // ---- properties of the store's list operations ----

  /** Toggling a task twice restores the task list. */
  lemma {:induction false} ToggleTwice(tasks: seq<Task>, id: string)
    ensures UpdateFirst(UpdateFirst(tasks, TaskId, id, Toggled), TaskId, id, Toggled) == tasks
  {
    UpdateFirstTwice(tasks, TaskId, id, Toggled);
  }

  /** Toggling flips `completed` on the first task with `id` and touches
      nothing else. */
  lemma {:induction false} ToggleFirstOnly(tasks: seq<Task>, id: string)
    ensures var r, i := UpdateFirst(tasks, TaskId, id, Toggled), FirstIndex(tasks, TaskId, id);
            && |r| == |tasks|
            && (i >= 0 ==> r[i].completed == !tasks[i].completed && r[i].(completed := tasks[i].completed) == tasks[i])
            && forall j :: 0 <= j < |tasks| && j != i ==> r[j] == tasks[j]
  {
    UpdateFirstFrame(tasks, TaskId, id, Toggled);
  }

  /** Marking one notification read twice is marking it once, and it sets
      `read` on the first match only. */
  lemma {:induction false} MarkReadSpec(ns: seq<Notification>, id: string)
    ensures var r, i := UpdateFirst(ns, NotificationId, id, MarkedRead), FirstIndex(ns, NotificationId, id);
            && |r| == |ns|
            && (i >= 0 ==> r[i] == ns[i].(read := true))
            && (forall j :: 0 <= j < |ns| && j != i ==> r[j] == ns[j])
            && UpdateFirst(r, NotificationId, id, MarkedRead) == r
  {
    UpdateFirstFrame(ns, NotificationId, id, MarkedRead);
    UpdateFirstIdempotent(ns, NotificationId, id, MarkedRead);
  }

  /** After `markAllRead` every notification is read and otherwise unchanged. */
  lemma {:induction false} MarkAllReadSpec(ns: seq<Notification>)
    ensures var r := AllMarkedRead(ns);
            && |r| == |ns|
            && (forall j :: 0 <= j < |r| ==> r[j].read && r[j].(read := ns[j].read) == ns[j])
            && AllMarkedRead(r) == r
  {
    AllMarkedReadIdempotent(ns);
  }
}
