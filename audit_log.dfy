/** The audit-log screen: a free-text search over action, details and user,
    combined with a filter on the activity type, and the badge colour of each
    type. */
module AuditLog {
  import opened Types
  import opened Seqs
  import opened Strings

  /** The type filter's catch-all value. */
  const AllTypes: string := "all"

  /** The search term occurs, ignoring ASCII case, in the action, the details
      or the user. */
  predicate MatchesSearch(a: ActivityLog, term: string) {
    var t := Lower(term);
    Contains(Lower(a.action), t) || Contains(Lower(a.details), t) || Contains(Lower(a.user), t)
  }

  predicate MatchesType(a: ActivityLog, filterType: string) {
    filterType == AllTypes || ActivityTag(a.kind) == filterType
  }

  /** The filter's predicate: both the search and the type must match. */
  function Keep(term: string, filterType: string): ActivityLog -> bool {
    (a: ActivityLog) => MatchesSearch(a, term) && MatchesType(a, filterType)
  }

  /** `filteredActivities`: every matching entry, as often as the log holds it. */
  function FilteredActivities(activities: seq<ActivityLog>, term: string, filterType: string): (r: seq<ActivityLog>)
    ensures forall a :: a in r <==> a in activities && MatchesSearch(a, term) && MatchesType(a, filterType)
    ensures forall a ::
              multiset(r)[a] == if MatchesSearch(a, term) && MatchesType(a, filterType) then multiset(activities)[a] else 0
  {
    FilterCounts(activities, Keep(term, filterType));
    Filter(activities, Keep(term, filterType))
  }

  /** The result keeps the log's order: it is a subsequence of it. */
  lemma FilteredIsSubseq(activities: seq<ActivityLog>, term: string, filterType: string)
    ensures IsSubseq(FilteredActivities(activities, term, filterType), activities)
    ensures |FilteredActivities(activities, term, filterType)| <= |activities|
  {
    FilterIsSubseq(activities, Keep(term, filterType));
  }

  /** With no search term and every type selected, the whole log is shown. */
  lemma UnfilteredShowsAll(activities: seq<ActivityLog>)
    ensures FilteredActivities(activities, "", AllTypes) == activities
  {
    forall j | 0 <= j < |activities| ensures Keep("", AllTypes)(activities[j]) {
      ContainsEmpty(Lower(activities[j].action));
    }
    FilterKeepsAll(activities, Keep("", AllTypes));
  }

  /** With one type selected, every entry shown has that type; a value that is
      not one of the eight tags shows nothing. */
  lemma TypeFilterSound(activities: seq<ActivityLog>, term: string, filterType: string)
    requires filterType != AllTypes
    ensures forall a :: a in FilteredActivities(activities, term, filterType) ==> ActivityTag(a.kind) == filterType
    ensures (forall t :: ActivityTag(t) != filterType) ==> FilteredActivities(activities, term, filterType) == []
  {
    var r := FilteredActivities(activities, term, filterType);
    if |r| > 0 {
      assert r[0] in r;
    }
  }

  /** `getTypeColor`. */
  function TypeColor(tag: string): string {
    if tag == "create" then "bg-emerald-100 text-emerald-700 border-emerald-200"
    else if tag == "delete" then "bg-red-100 text-red-700 border-red-200"
    else if tag == "update" then "bg-amber-100 text-amber-700 border-amber-200"
    else if tag == "system" then "bg-slate-100 text-slate-700 border-slate-200"
    else DefaultColor
  }

  const ColoredTags: set<string> := {"create", "delete", "update", "system"}

  const DefaultColor: string := "bg-indigo-100 text-indigo-700 border-indigo-200"

  /** Create, delete, update and system each get a colour of their own; every
      other tag shares the default one. */
  lemma TypeColorsDistinct(tag: string)
    ensures tag !in ColoredTags ==> TypeColor(tag) == DefaultColor
    ensures forall t, u :: t in ColoredTags && u in ColoredTags && t != u ==> TypeColor(t) != TypeColor(u)
    ensures forall t :: t in ColoredTags ==> TypeColor(t) != DefaultColor
  {
  }
}
