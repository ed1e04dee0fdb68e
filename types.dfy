/** The record shapes of the CRM: contacts, deals, tasks, activity-log entries,
    notifications and the user profile, plus the deal pipeline stages and the
    navigation tabs. */
module Types {

  datatype Option<+T> = None | Some(value: T)

  /** The six pipeline stages of a deal, declared in board order. */
  datatype DealStage = NewLead | Qualified | ProposalSent | Negotiation | ClosedWon | ClosedLost

  /** The enum's string values. */
  function StageLabel(s: DealStage): (r: string)
    ensures |r| > 0
  {
    match s
    case NewLead => "New Lead"
    case Qualified => "Qualified"
    case ProposalSent => "Proposal Sent"
    case Negotiation => "Negotiation"
    case ClosedWon => "Closed Won"
    case ClosedLost => "Closed Lost"
  }

  /** `Object.values(DealStage)`: every stage in declaration order. */
  const AllStages: seq<DealStage> :=
    [NewLead, Qualified, ProposalSent, Negotiation, ClosedWon, ClosedLost]

  /** The position of a stage in `AllStages`. */
  function StageIndex(s: DealStage): (i: nat)
    ensures i < |AllStages| && AllStages[i] == s
  {
    match s
    case NewLead => 0
    case Qualified => 1
    case ProposalSent => 2
    case Negotiation => 3
    case ClosedWon => 4
    case ClosedLost => 5
  }

  /** `AllStages` lists every stage exactly once, and the labels tell the stages apart. */
  lemma AllStagesEnumerates()
    ensures |AllStages| == 6
    ensures forall i, j :: 0 <= i < j < |AllStages| ==> AllStages[i] != AllStages[j]
    ensures forall s: DealStage :: s in AllStages
    ensures forall s, t :: StageLabel(s) == StageLabel(t) ==> s == t
  {
    forall s: DealStage ensures s in AllStages {
      assert AllStages[StageIndex(s)] == s;
    }
  }

  /** The screens the controller can show. The declared navigation type has
      six tags; the controller also switches to a seventh, 'profile'. */
  datatype NavItem = DashboardTab | ContactsTab | DealsTab | TasksTab | AuditTab | SettingsTab | ProfileTab

  datatype Contact = Contact(
    id: string,
    firstName: string,
    lastName: string,
    email: string,
    phone: string,
    company: string,
    position: string,
    lastContacted: string,
    notes: string)

  /** `amount` is a JavaScript number, taken here as an integer. */
  datatype Deal = Deal(
    id: string,
    title: string,
    amount: int,
    stage: DealStage,
    contactId: string,
    closeDate: string,
    probability: int)

  /** The documented range of a deal's win probability; nothing enforces it. */
  predicate ValidProbability(d: Deal) {
    0 <= d.probability <= 100
  }

  datatype Task = Task(
    id: string,
    title: string,
    dueDate: string,
    completed: bool,
    relatedTo: Option<string>)

  datatype ActivityType = Email | Call | Meeting | Note | Create | Update | Delete | System

  /** The string tag an activity carries in storage and in the type filter. */
  function ActivityTag(t: ActivityType): (r: string)
    ensures |r| > 0
  {
    match t
    case Email => "email"
    case Call => "call"
    case Meeting => "meeting"
    case Note => "note"
    case Create => "create"
    case Update => "update"
    case Delete => "delete"
    case System => "system"
  }

  lemma ActivityTagInjective(t: ActivityType, u: ActivityType)
    requires ActivityTag(t) == ActivityTag(u)
    ensures t == u
  {
  }

  datatype EntityType = ContactEntity | DealEntity | TaskEntity | SystemEntity

  datatype ActivityLog = ActivityLog(
    id: string,
    kind: ActivityType,
    user: string,
    action: string,
    details: string,
    timestamp: string,
    entityId: Option<string>,
    entityType: Option<EntityType>)

  /** Notification tags as they occur in the seed data. */
  datatype NotificationKind = Info | Warning | Success | Alert

  datatype Notification = Notification(
    id: string,
    title: string,
    message: string,
    timestamp: string,
    read: bool,
    kind: NotificationKind)

  datatype NotificationPreferences = NotificationPreferences(
    email: bool,
    desktop: bool,
    marketing: bool)

  datatype UserProfile = UserProfile(
    id: string,
    name: string,
    email: string,
    role: string,
    phone: string,
    location: string,
    bio: string,
    avatar: Option<string>,
    notificationPreferences: NotificationPreferences)

  /** The mock data the application starts from and that the store's `init` writes into missing slots. */
  datatype Seed = Seed(
    contacts: seq<Contact>,
    deals: seq<Deal>,
    tasks: seq<Task>,
    activities: seq<ActivityLog>,
    notifications: seq<Notification>,
    user: UserProfile)

  /** A task with its `completed` flag flipped. */
  function Toggled(t: Task): (r: Task)
    ensures r.id == t.id && r.completed == !t.completed
    ensures r.(completed := t.completed) == t
  {
    t.(completed := !t.completed)
  }

  /** A notification with `read` set. */
  function MarkedRead(n: Notification): (r: Notification)
    ensures r.id == n.id && r.read
    ensures r.(read := n.read) == n
  {
    n.(read := true)
  }

  /** `notes.map(n => ({...n, read: true}))`. */
  function AllMarkedRead(ns: seq<Notification>): (r: seq<Notification>)
    ensures |r| == |ns|
    ensures forall i :: 0 <= i < |ns| ==> r[i] == MarkedRead(ns[i])
    decreases |ns|
  {
    if |ns| == 0 then [] else [MarkedRead(ns[0])] + AllMarkedRead(ns[1..])
  }

  /** Marking everything read twice is marking it read once. */
  lemma AllMarkedReadIdempotent(ns: seq<Notification>)
    ensures AllMarkedRead(AllMarkedRead(ns)) == AllMarkedRead(ns)
  {
  }

  // The `id` projections, passed to the by-id sequence operations of `Seqs`.
  function ContactId(c: Contact): string { c.id }
  function DealId(d: Deal): string { d.id }
  function TaskId(t: Task): string { t.id }
  function NotificationId(n: Notification): string { n.id }
}
