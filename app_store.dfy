/**
 * The client's global store (`useAppStore`): the signed-in user, four entity lists each
 * with a current item, and two UI flags. Every action computes the next state from the
 * current one; `set` merges what the action returns into the state.
 *
 * Entities are kept as the JSON objects the API returns; `{ ...item, ...updates }` is
 * map union, the right-hand side winning.
 */
module AppStore {

  import opened Wrappers
  import opened Json

  type Item = map<string, Json>

  /** `item.id === id`; an item without `id` matches no id. */
  predicate HasId(item: Item, id: string) {
    "id" in item && item["id"] == JStr(id)
  }

  /** One entity's list and its current item. */
  datatype Slice = Slice(items: seq<Item>, current: Option<Item>)

  datatype Kind = Projects | Requirements | Modules | Tasks

  datatype AppState = AppState(
    user: Option<Item>,
    projects: Slice, requirements: Slice, modules: Slice, tasks: Slice,
    loading: bool, sidebarCollapsed: bool)

  function SliceOf(s: AppState, k: Kind): Slice {
    match k
    case Projects => s.projects
    case Requirements => s.requirements
    case Modules => s.modules
    case Tasks => s.tasks
  }

  /** The state with one entity's slice replaced; every other field is kept. */
  function WithSlice(s: AppState, k: Kind, sl: Slice): (t: AppState)
    ensures SliceOf(t, k) == sl
    ensures forall k' :: k' != k ==> SliceOf(t, k') == SliceOf(s, k')
    ensures t.user == s.user && t.loading == s.loading && t.sidebarCollapsed == s.sidebarCollapsed
  {
    match k
    case Projects => s.(projects := sl)
    case Requirements => s.(requirements := sl)
    case Modules => s.(modules := sl)
    case Tasks => s.(tasks := sl)
  }

  /** The store as created: no user, empty lists, no current items, both flags off. */
  function Initial(): (s: AppState)
    ensures s.user.None? && !s.loading && !s.sidebarCollapsed
    ensures forall k :: SliceOf(s, k).items == [] && SliceOf(s, k).current.None?
  {
    var empty := Slice([], None);
    AppState(None, empty, empty, empty, empty, false, false)
  }

  /** `{ ...item, ...updates }` when the id matches, the item itself otherwise. */
  function MergeIf(item: Item, id: string, updates: Item): Item {
    if HasId(item, id) then item + updates else item
  }

  /** `items.map(p => p.id === id ? { ...p, ...updates } : p)`. */
  function UpdateItems(items: seq<Item>, id: string, updates: Item): (r: seq<Item>)
    ensures |r| == |items|
    ensures forall k :: 0 <= k < |r| ==> r[k] == MergeIf(items[k], id, updates)
  {
    if items == [] then [] else [MergeIf(items[0], id, updates)] + UpdateItems(items[1..], id, updates)
  }

  /** `current?.id === id ? { ...current, ...updates } : current`. */
  function MergeCurrent(current: Option<Item>, id: string, updates: Item): (r: Option<Item>)
    ensures current.None? ==> r.None?
    ensures current.Some? && HasId(current.value, id) ==> r == Some(current.value + updates)
    ensures current.Some? && !HasId(current.value, id) ==> r == current
  {
    if current.Some? && HasId(current.value, id) then Some(current.value + updates) else current
  }

  /** The store's actions, four of each entity kind folded into one constructor with a `Kind`. */
  datatype Action =
    | SetUser(newUser: Option<Item>)
    | SetItems(kind: Kind, items: seq<Item>)
    | SetCurrent(kind: Kind, current: Option<Item>)
    | Add(kind: Kind, item: Item)
    | Update(kind: Kind, id: string, updates: Item)
    | SetLoading(loading: bool)
    | SetSidebarCollapsed(collapsed: bool)

  /** The next state after an action. */
  function Apply(s: AppState, a: Action): AppState {
    match a
    case SetUser(u) => s.(user := u)
    case SetItems(k, items) => WithSlice(s, k, SliceOf(s, k).(items := items))
    case SetCurrent(k, item) => WithSlice(s, k, SliceOf(s, k).(current := item))
    case Add(k, item) => WithSlice(s, k, SliceOf(s, k).(items := [item] + SliceOf(s, k).items))
    case Update(k, id, updates) =>
      var sl := SliceOf(s, k);
      WithSlice(s, k, Slice(UpdateItems(sl.items, id, updates), MergeCurrent(sl.current, id, updates)))
    case SetLoading(b) => s.(loading := b)
    case SetSidebarCollapsed(b) => s.(sidebarCollapsed := b)
  }

  /** The parts of the state an action may write. */
  datatype Part = UserPart | ItemsPart(kind: Kind) | CurrentPart(kind: Kind) | LoadingPart | SidebarPart

  function Writes(a: Action): set<Part> {
    match a
    case SetUser(_) => {UserPart}
    case SetItems(k, _) => {ItemsPart(k)}
    case SetCurrent(k, _) => {CurrentPart(k)}
    case Add(k, _) => {ItemsPart(k)}
    case Update(k, _, _) => {ItemsPart(k), CurrentPart(k)}
    case SetLoading(_) => {LoadingPart}
    case SetSidebarCollapsed(_) => {SidebarPart}
  }

  predicate Agree(s: AppState, t: AppState, p: Part) {
    match p
    case UserPart => s.user == t.user
    case ItemsPart(k) => SliceOf(s, k).items == SliceOf(t, k).items
    case CurrentPart(k) => SliceOf(s, k).current == SliceOf(t, k).current
    case LoadingPart => s.loading == t.loading
    case SidebarPart => s.sidebarCollapsed == t.sidebarCollapsed
  }

  /** Every action leaves every part of the state it does not name as it was. */
  lemma ActionFrame(s: AppState, a: Action, p: Part)
    requires p !in Writes(a)
    ensures Agree(s, Apply(s, a), p)
  {
  }

  /** Adding puts the new item first, followed by the old list in its order. */
  lemma AddPrepends(s: AppState, k: Kind, item: Item)
    ensures var items := SliceOf(Apply(s, Add(k, item)), k).items;
      |items| == |SliceOf(s, k).items| + 1 && items[0] == item && items[1..] == SliceOf(s, k).items
  {
  }

  /**
   * Updating merges into exactly the items with that id: the others, the length and the
   * order stay as they were.
   */
  lemma UpdateMergesMatching(s: AppState, k: Kind, id: string, updates: Item)
    ensures var before := SliceOf(s, k).items;
      var after := SliceOf(Apply(s, Update(k, id, updates)), k).items;
      |after| == |before|
      && (forall j :: 0 <= j < |before| && HasId(before[j], id) ==> after[j] == before[j] + updates)
      && (forall j :: 0 <= j < |before| && !HasId(before[j], id) ==> after[j] == before[j])
  {
  }

  /** An id no item carries leaves the list as it was. */
  lemma {:induction false} UpdateAbsentId(items: seq<Item>, id: string, updates: Item)
    requires forall j :: 0 <= j < |items| ==> !HasId(items[j], id)
    ensures UpdateItems(items, id, updates) == items
  {
    if items != [] {
      UpdateAbsentId(items[1..], id, updates);
      assert items == [items[0]] + items[1..];
    }
  }

  /** Applying the same update twice is applying it once. */
  lemma UpdateIdempotent(s: AppState, k: Kind, id: string, updates: Item)
    ensures var once := Apply(s, Update(k, id, updates));
      Apply(once, Update(k, id, updates)) == once
  {
    var sl := SliceOf(s, k);
    var items := UpdateItems(sl.items, id, updates);
    var twice := UpdateItems(items, id, updates);
    forall j | 0 <= j < |items| ensures twice[j] == items[j] {
      MergeTwice(sl.items[j], id, updates);
    }
    var cur := MergeCurrent(sl.current, id, updates);
    if sl.current.Some? {
      MergeTwice(sl.current.value, id, updates);
    }
    assert MergeCurrent(cur, id, updates) == cur;
  }

  /** Merging an item twice gives what merging once gives, whether or not the update changes `id`. */
  lemma MergeTwice(item: Item, id: string, updates: Item)
    ensures MergeIf(MergeIf(item, id, updates), id, updates) == MergeIf(item, id, updates)
  {
    if HasId(item, id) {
      var m := item + updates;
      assert m + updates == m;
    }
  }
}
