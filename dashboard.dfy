/**
 * The dashboard's data: the persona and canvas collections, the open canvas editor,
 * and the operations the dashboard performs on them once the page plumbing is set
 * aside. Record ids and timestamps that the page takes from the clock, and the
 * answers it reads from `confirm` and `prompt`, are parameters here.
 */
module Dashboard {
  import opened Wrappers
  import opened Seqs
  import opened Strings
  import opened CanvasCodec
  import opened DragReorder

  /** The nine `data-section` keys of a business model canvas. */
  datatype SectionKey =
    | KeyPartners | KeyActivities | ValuePropositions | CustomerRelationships
    | CustomerSegments | KeyResources | Channels | CostStructure | RevenueStreams

  /** The sections in the order the editor lays them out. */
  const AllSections: seq<SectionKey> := [KeyPartners, KeyActivities, ValuePropositions,
    CustomerRelationships, CustomerSegments, KeyResources, Channels, CostStructure, RevenueStreams]

  lemma AllSectionsListed()
    ensures forall k :: k in AllSections
    ensures forall i, j :: 0 <= i < j < |AllSections| ==> AllSections[i] != AllSections[j]
  {
    forall k ensures k in AllSections {
      assert AllSections[Index(k)] == k;
    }
  }

  /** Where `k` stands in `AllSections`. */
  function Index(k: SectionKey): nat {
    match k
    case KeyPartners => 0
    case KeyActivities => 1
    case ValuePropositions => 2
    case CustomerRelationships => 3
    case CustomerSegments => 4
    case KeyResources => 5
    case Channels => 6
    case CostStructure => 7
    case RevenueStreams => 8
  }

  /** `i` is where `find(c => c.id === id)` stops: the first canvas with that id. */
  predicate FirstWithId(canvases: seq<Canvas>, i: int, id: int) {
    0 <= i < |canvases| && canvases[i].id == id && forall j :: 0 <= j < i ==> canvases[j].id != id
  }

  predicate HasNoId(canvases: seq<Canvas>, id: int) {
    forall i :: 0 <= i < |canvases| ==> canvases[i].id != id
  }

  /** `findIndex` / `find` by id stop at the first canvas with that id, and only there. */
  lemma FindById(canvases: seq<Canvas>, id: int)
    ensures FindIndex(canvases, CanvasId, id).None? <==> HasNoId(canvases, id)
    ensures forall i :: FirstWithId(canvases, i, id) <==> FindIndex(canvases, CanvasId, id) == Some(i)
  {
  }

  /** A stored canvas: each section is one string with one item per line. */
  datatype Canvas = Canvas(id: int, name: string, lastModified: string, content: map<SectionKey, string>)

  /**
   * A stored persona: its id, its creation time (milliseconds; absent in records that
   * predate it) and the rest of its fields as they came.
   */
  datatype PersonaRecord = PersonaRecord(id: int, fields: map<string, string>, createdAt: Option<int>)

  /** What the creation page hands over: the persona's fields, possibly with an id of its own. */
  datatype PersonaPayload = PersonaPayload(id: Option<int>, fields: map<string, string>)

  datatype DashboardData = DashboardData(personas: seq<PersonaRecord>, canvases: seq<Canvas>)

  function CanvasId(c: Canvas): int { c.id }
  function PersonaId(p: PersonaRecord): int { p.id }

  function MockPersona(id: int, name: string, industry: string, age: string): PersonaRecord {
    PersonaRecord(id, map["name" := name, "industry" := industry, "age" := age], None)
  }

  /** The demonstration data used when nothing is stored. */
  const MockData: DashboardData := DashboardData(
    [ MockPersona(1, "Tech Lead", "Software", "30-40"),
      MockPersona(2, "Marketing Manager", "Retail", "25-35"),
      MockPersona(3, "Sales Executive", "Finance", "35-45") ],
    [SaasPlatform, ECommerceStore, MobileApp])

  const SaasPlatform: Canvas := Canvas(1, "SaaS Platform", "2024-02-15", map[
    KeyPartners := "Cloud service providers\n" + "Technology vendors\n" + "Marketing agencies",
    KeyActivities := "Software development\n" + "Customer support\n" + "Platform maintenance",
    ValuePropositions := "Automated workflow\n" + "Real-time analytics\n" + "Seamless integration",
    CustomerRelationships := "24/7 Support\n" + "Personal account managers\n" + "Online community",
    CustomerSegments := "Small businesses\n" + "Enterprise companies\n" + "Freelancers",
    KeyResources := "Development team\n" + "Cloud infrastructure\n" + "Intellectual property",
    Channels := "Direct sales\n" + "Online platform\n" + "Partner network",
    CostStructure := "Development costs\n" + "Server maintenance\n" + "Marketing expenses",
    RevenueStreams := "Subscription fees\n" + "Premium features\n" + "Consulting services"])

  const ECommerceStore: Canvas := Canvas(2, "E-commerce Store", "2024-02-14", map[
    KeyPartners := "Suppliers\n" + "Shipping companies\n" + "Payment processors",
    KeyActivities := "Inventory management\n" + "Order fulfillment\n" + "Customer service",
    ValuePropositions := "Quality products\n" + "Fast shipping\n" + "Easy returns",
    CustomerRelationships := "Loyalty program\n" + "Email marketing\n" + "Social media",
    CustomerSegments := "Online shoppers\n" + "Fashion enthusiasts\n" + "Gift buyers",
    KeyResources := "Inventory\n" + "Warehouse\n" + "E-commerce platform",
    Channels := "Online store\n" + "Mobile app\n" + "Social media",
    CostStructure := "Inventory costs\n" + "Shipping fees\n" + "Marketing budget",
    RevenueStreams := "Product sales\n" + "Shipping fees\n" + "Affiliate marketing"])

  const MobileApp: Canvas := Canvas(3, "Mobile App", "2024-02-13", map[
    KeyPartners := "App stores\n" + "Advertising networks\n" + "Content providers",
    KeyActivities := "App development\n" + "User engagement\n" + "Content updates",
    ValuePropositions := "Unique features\n" + "User experience\n" + "Offline access",
    CustomerRelationships := "In-app support\n" + "User feedback\n" + "Regular updates",
    CustomerSegments := "Mobile users\n" + "Young professionals\n" + "Tech enthusiasts",
    KeyResources := "Development team\n" + "User data\n" + "Brand identity",
    Channels := "App stores\n" + "Social media\n" + "Influencer marketing",
    CostStructure := "Development\n" + "Server costs\n" + "Marketing",
    RevenueStreams := "In-app purchases\n" + "Subscriptions\n" + "Advertising"])

  /** `createdAt: p.createdAt || now` */
  function Stamp(p: PersonaRecord, now: int): (r: PersonaRecord)
    ensures r.id == p.id && r.fields == p.fields
    ensures p.createdAt.Some? ==> r == p
    ensures p.createdAt.None? ==> r.createdAt == Some(now)
  {
    p.(createdAt := Some(p.createdAt.GetOr(now)))
  }

  /**
   * `loadStoredData`: the stored data, or the demonstration data when nothing is
   * stored, with every persona given a creation time; times already there are kept.
   * The source reads the clock once per persona, inside the `map`; `clock(i)` is the
   * reading taken for the persona at index `i`.
   */
  function LoadStoredData(stored: Option<DashboardData>, clock: nat -> int): (r: DashboardData)
    ensures r.canvases == stored.GetOr(MockData).canvases
    ensures |r.personas| == |stored.GetOr(MockData).personas|
    ensures forall i :: 0 <= i < |r.personas| ==> r.personas[i].createdAt.Some?
    ensures forall i :: 0 <= i < |r.personas| ==>
              var p := stored.GetOr(MockData).personas[i];
              && r.personas[i].id == p.id && r.personas[i].fields == p.fields
              && (p.createdAt.Some? ==> r.personas[i] == p)
              && (p.createdAt.None? ==> r.personas[i].createdAt == Some(clock(i)))
  {
    var data := stored.GetOr(MockData);
    var stamped := seq(|data.personas|, i requires 0 <= i < |data.personas| => Stamp(data.personas[i], clock(i)));
    assert forall i :: 0 <= i < |stamped| ==> stamped[i] == Stamp(data.personas[i], clock(i));
    DashboardData(stamped, data.canvases)
  }

  /** Loading data that was loaded (and saved) before changes nothing, whatever the clock says. */
  lemma ReloadIsStable(stored: Option<DashboardData>, clock: nat -> int, later: nat -> int)
    ensures LoadStoredData(Some(LoadStoredData(stored, clock)), later) == LoadStoredData(stored, clock)
  {
    var d := LoadStoredData(stored, clock);
    var e := LoadStoredData(Some(d), later);
    assert |e.personas| == |d.personas|;
    forall i | 0 <= i < |d.personas| ensures e.personas[i] == d.personas[i] {
    }
  }

  // ---------------------------------------------------------------------------
  // The canvas editor

  /** The item texts each section of the open editor shows, in order. */
  type Editor = map<SectionKey, seq<string>>

  predicate FullEditor(e: Editor) {
    forall k :: k in e
  }

  /** A fresh editor: every section empty. */
  function EmptyEditor(): (e: Editor)
    ensures FullEditor(e) && forall k :: e[k] == []
  {
    AllSectionsListed();
    map k | k in AllSections :: []
  }

  /**
   * `loadCanvasContent`: each stored section is decoded into its items; a section the
   * stored content lacks stays empty.
   */
  function LoadEditor(content: map<SectionKey, string>): (e: Editor)
    ensures FullEditor(e)
    ensures forall k :: k in content ==> e[k] == Decode(content[k])
    ensures forall k :: k !in content ==> e[k] == []
  {
    AllSectionsListed();
    map k | k in AllSections :: if k in content then Decode(content[k]) else []
  }

  /** The content `saveCurrentCanvas` builds: every section of the editor, encoded. */
  function EditorContent(e: Editor): (c: map<SectionKey, string>)
    requires FullEditor(e)
    ensures forall k :: k in c && c[k] == Encode(e[k])
  {
    AllSectionsListed();
    map k | k in AllSections :: Encode(e[k])
  }

  /**
   * `openCanvasModal(id)`: without an id, an empty editor; with the id of a stored
   * canvas, that canvas's content; with an unknown id, None: the page fails on the
   * missing canvas before it rebuilds the editor.
   */
  function OpenCanvas(canvases: seq<Canvas>, id: Option<int>): (r: Option<Editor>)
    ensures id.None? ==> r == Some(EmptyEditor())
    ensures id.Some? && HasNoId(canvases, id.value) ==> r.None?
    ensures id.Some? ==> forall i :: FirstWithId(canvases, i, id.value) ==> r == Some(LoadEditor(canvases[i].content))
  {
    if id.None? then Some(EmptyEditor())
    else
      var f := FindIndex(canvases, CanvasId, id.value);
      FindById(canvases, id.value);
      if f.None? then None else Some(LoadEditor(canvases[f.value].content))
  }

  /** Whether the name prompt aborts a save: it was shown and cancelled or left empty. */
  predicate PromptAborts(showPrompt: bool, answer: Option<string>) {
    showPrompt && (answer.None? || answer.value == [])
  }

  /**
   * `saveCurrentCanvas(showPrompt)` on the canvas list. `answer` is what the name prompt
   * returned, `newId` and `today` the clock's readings. An aborted prompt and an open
   * canvas that is no longer stored leave the list as it was; an open stored canvas is
   * replaced in place under its own id; with no open canvas a new one goes in front.
   */
  function SaveCanvas(canvases: seq<Canvas>, current: Option<int>, showPrompt: bool, answer: Option<string>,
                      content: map<SectionKey, string>, newId: int, today: string): (r: seq<Canvas>)
    ensures PromptAborts(showPrompt, answer) ==> r == canvases
    ensures current.Some? && HasNoId(canvases, current.value) ==> r == canvases
    ensures !PromptAborts(showPrompt, answer) && current.Some? ==> forall i :: FirstWithId(canvases, i, current.value) ==>
              && |r| == |canvases|
              && r[i] == Canvas(canvases[i].id, if showPrompt then answer.value else canvases[i].name,
                                today, content)
              && (forall j :: 0 <= j < |r| && j != i ==> r[j] == canvases[j])
    ensures !PromptAborts(showPrompt, answer) && current.None? ==>
              && |r| == |canvases| + 1
              && r[0] == Canvas(newId, if showPrompt then answer.value else "New Canvas", today, content)
              && r[1..] == canvases
  {
    if PromptAborts(showPrompt, answer) then canvases
    else
      match current
      case Some(id) =>
        (match FindIndex(canvases, CanvasId, id)
         case None => canvases
         case Some(i) =>
           var name := if showPrompt then answer.value else canvases[i].name;
           canvases[i := Canvas(canvases[i].id, name, today, content)])
      case None =>
        var name := if showPrompt then answer.value else "New Canvas";
        [Canvas(newId, name, today, content)] + canvases
  }

  /**
   * Saving an open stored canvas and opening it again shows every section with its
   * items trimmed and the empty ones gone, provided no item holds a line break.
   */
  lemma SaveThenReopen(canvases: seq<Canvas>, i: nat, id: int, e: Editor, showPrompt: bool,
                       answer: Option<string>, newId: int, today: string)
    requires FirstWithId(canvases, i, id)
    requires FullEditor(e) && forall k :: NoNewlines(e[k])
    requires !PromptAborts(showPrompt, answer)
    ensures OpenCanvas(SaveCanvas(canvases, Some(id), showPrompt, answer, EditorContent(e), newId, today), Some(id))
            == Some(CleanEditor(e))
  {
    var saved := SaveCanvas(canvases, Some(id), showPrompt, answer, EditorContent(e), newId, today);
    assert FirstWithId(saved, i, id);
    var loaded := LoadEditor(saved[i].content);
    forall k ensures loaded[k] == Clean(e[k]) {
      DecodeEncode(e[k]);
    }
    EditorsEqual(loaded, CleanEditor(e));
  }

  /** Every section of `e` cleaned: what a save and a reload leave of it. */
  function CleanEditor(e: Editor): (r: Editor)
    requires FullEditor(e)
    ensures FullEditor(r) && forall k :: r[k] == Clean(e[k])
  {
    AllSectionsListed();
    map k | k in AllSections :: Clean(e[k])
  }

  lemma EditorsEqual(a: Editor, b: Editor)
    requires FullEditor(a) && FullEditor(b) && forall k :: a[k] == b[k]
    ensures a == b
  {
  }

  /** `filter(x => x.id !== Number(id))`: every record with that id removed, the rest kept in order. */
  function RemoveId<T(==,!new)>(xs: seq<T>, key: T -> int, id: int): (r: seq<T>)
    ensures IsSubsequence(r, xs)
    ensures forall x :: x in r <==> x in xs && key(x) != id
    ensures forall x :: multiset(r)[x] == if key(x) != id then multiset(xs)[x] else 0
  {
    FilterCounts(xs, x => key(x) != id);
    Filter(xs, x => key(x) != id)
  }

  /** Removing an id that no record has changes nothing. */
  lemma RemoveMissingId<T(!new)>(xs: seq<T>, key: T -> int, id: int)
    requires forall i :: 0 <= i < |xs| ==> key(xs[i]) != id
    ensures RemoveId(xs, key, id) == xs
  {
    FilterKeepsAll(xs, x => key(x) != id);
  }

  /** Removing the same id twice removes no more than once. */
  lemma RemoveIdIdempotent<T(!new)>(xs: seq<T>, key: T -> int, id: int)
    ensures RemoveId(RemoveId(xs, key, id), key, id) == RemoveId(xs, key, id)
  {
    var r := RemoveId(xs, key, id);
    forall i | 0 <= i < |r| ensures key(r[i]) != id {
      assert r[i] in r;
    }
    RemoveMissingId(r, key, id);
  }

  /** `deleteCanvas` / `deletePersona`: the removal happens only when confirmed. */
  function DeleteConfirmed<T(==,!new)>(xs: seq<T>, key: T -> int, id: int, confirmed: bool): (r: seq<T>)
    ensures !confirmed ==> r == xs
    ensures confirmed ==> r == RemoveId(xs, key, id)
  {
    if confirmed then RemoveId(xs, key, id) else xs
  }

  /**
   * `duplicateCanvas(id)`: a copy of the first canvas with that id, under a new id and
   * with " (Copy)" after its name, goes in front; an unknown id changes nothing.
   */
  function Duplicate(canvases: seq<Canvas>, id: int, newId: int, today: string): (r: seq<Canvas>)
    ensures HasNoId(canvases, id) ==> r == canvases
    ensures forall i :: FirstWithId(canvases, i, id) ==>
              && |r| == |canvases| + 1
              && r[1..] == canvases
              && r[0] == Canvas(newId, canvases[i].name + " (Copy)", today, canvases[i].content)
  {
    match FindIndex(canvases, CanvasId, id)
    case None => canvases
    case Some(i) =>
      var original := canvases[i];
      [original.(id := newId, name := original.name + " (Copy)", lastModified := today)] + canvases
  }

  /**
   * `addNewPersona(payload)`: the payload's fields, the generated id unless the payload
   * brings its own, and a fresh creation time, in front of the others.
   */
  function NewPersona(personas: seq<PersonaRecord>, payload: PersonaPayload, newId: int, now: int)
    : (r: seq<PersonaRecord>)
    ensures |r| == |personas| + 1 && r[1..] == personas
    ensures r[0].fields == payload.fields && r[0].createdAt == Some(now)
    ensures payload.id.Some? ==> r[0].id == payload.id.value
    ensures payload.id.None? ==> r[0].id == newId
  {
    [PersonaRecord(payload.id.GetOr(newId), payload.fields, Some(now))] + personas
  }

  // ---------------------------------------------------------------------------
  // Counts, completeness and statistics

  /** `countCanvasItems` over the sections `keys`: the non-empty lines of each stored one, added up. */
  function CountLines(content: map<SectionKey, string>, keys: seq<SectionKey>): nat {
    if keys == [] then 0
    else (if keys[0] in content then LineCount(content[keys[0]]) else 0) + CountLines(content, keys[1..])
  }

  /** `countCanvasItems`: never fewer than the items the editor shows when the canvas is opened. */
  function CountCanvasItems(c: Canvas): (n: nat)
    ensures n >= ItemsShown(LoadEditor(c.content), AllSections)
  {
    CountCoversLoaded(c.content, AllSections);
    CountLines(c.content, AllSections)
  }

  /** How many items the editor shows over the sections `keys`. */
  function ItemsShown(e: Editor, keys: seq<SectionKey>): nat
    requires FullEditor(e)
  {
    if keys == [] then 0 else |e[keys[0]]| + ItemsShown(e, keys[1..])
  }

  /** The grid's count is at least the number of items the editor loads for the canvas. */
  lemma {:induction false} CountCoversLoaded(content: map<SectionKey, string>, keys: seq<SectionKey>)
    ensures ItemsShown(LoadEditor(content), keys) <= CountLines(content, keys)
  {
    if keys != [] {
      CountCoversLoaded(content, keys[1..]);
      if keys[0] in content {
        DecodeWithinLineCount(content[keys[0]]);
      }
    }
  }

  /** For a canvas saved from the editor, the grid counts exactly the items the save kept. */
  lemma {:induction false} CountOfSaved(e: Editor, keys: seq<SectionKey>)
    requires FullEditor(e) && forall k :: NoNewlines(e[k])
    ensures CountLines(EditorContent(e), keys) == ItemsShown(CleanEditor(e), keys)
  {
    if keys != [] {
      CountOfSaved(e, keys[1..]);
      LineCountOfEncode(e[keys[0]]);
    }
  }

  /** `isCanvasComplete`: every stored section has something besides white space. */
  predicate IsCanvasComplete(c: Canvas) {
    forall k :: k in c.content ==> NonBlank(c.content[k])
  }

  /** A canvas is complete exactly when opening it shows at least one item in every stored section. */
  lemma CompleteIffEverySectionShows(c: Canvas)
    ensures IsCanvasComplete(c) <==> forall k :: k in c.content ==> LoadEditor(c.content)[k] != []
  {
    forall k | k in c.content ensures NonBlank(c.content[k]) <==> LoadEditor(c.content)[k] != [] {
      DecodeNonEmptyIff(c.content[k]);
    }
  }

  /** A canvas saved from the editor is complete exactly when every section kept an item. */
  lemma SavedCompleteIff(e: Editor, id: int, name: string, today: string)
    requires FullEditor(e)
    ensures IsCanvasComplete(Canvas(id, name, today, EditorContent(e))) <==> forall k :: Clean(e[k]) != []
  {
    forall k ensures NonBlank(Encode(e[k])) <==> Clean(e[k]) != [] {
      EncodeNonBlankIff(e[k]);
    }
  }

  /**
   * Opening a canvas that stores all nine sections and saving it again keeps it
   * complete or incomplete as it was.
   */
  lemma ReopenKeepsCompleteness(c: Canvas, today: string)
    requires forall k :: k in c.content
    ensures IsCanvasComplete(c.(content := EditorContent(LoadEditor(c.content)), lastModified := today))
            <==> IsCanvasComplete(c)
  {
    var e := LoadEditor(c.content);
    forall k ensures NonBlank(Encode(e[k])) <==> NonBlank(c.content[k]) {
      ReloadKeepsCompleteness(c.content[k]);
    }
  }

  /** The figures `updateStats` shows. */
  datatype Stats = Stats(personas: nat, canvases: nat, completed: nat)

  /** `updateStats`: the number of personas, of canvases, and of complete canvases. */
  function UpdateStats(d: DashboardData): (s: Stats)
    ensures s.personas == |d.personas| && s.canvases == |d.canvases|
    ensures s.completed <= s.canvases
    ensures s.completed == |d.canvases| <==> forall i :: 0 <= i < |d.canvases| ==> IsCanvasComplete(d.canvases[i])
  {
    var done := Filter(d.canvases, IsCanvasComplete);
    if forall i :: 0 <= i < |d.canvases| ==> IsCanvasComplete(d.canvases[i]) then
      FilterKeepsAll(d.canvases, IsCanvasComplete);
      Stats(|d.personas|, |d.canvases|, |done|)
    else
      var i :| 0 <= i < |d.canvases| && !IsCanvasComplete(d.canvases[i]);
      FilterMissesOne(d.canvases, IsCanvasComplete, i);
      Stats(|d.personas|, |d.canvases|, |done|)
  }

  /** The figures `initializeStats` shows. */
  datatype Overview = Overview(personas: nat, canvases: nat, projects: nat)

  /** `initializeStats`: personas and canvases, and both together as projects. */
  function InitializeStats(d: DashboardData): (s: Overview)
    ensures s.personas == |d.personas| && s.canvases == |d.canvases|
    ensures s.projects == s.personas + s.canvases
  {
    Overview(|d.personas|, |d.canvases|, |d.personas| + |d.canvases|)
  }

  /** Deleting canvases never raises the number of complete ones. */
  lemma DeleteKeepsCompletedBound(d: DashboardData, id: int)
    ensures UpdateStats(d.(canvases := RemoveId(d.canvases, CanvasId, id))).completed <= UpdateStats(d).completed
  {
    FilterOfSubsequence(RemoveId(d.canvases, CanvasId, id), d.canvases, IsCanvasComplete);
  }

  // ---------------------------------------------------------------------------
  // The recent-personas list

  /** `new Date(p.createdAt || 0)`: a missing creation time counts as the epoch. */
  function CreatedKey(p: PersonaRecord): int {
    p.createdAt.GetOr(0)
  }

  predicate NewestFirst(ps: seq<PersonaRecord>) {
    forall i, j :: 0 <= i < j < |ps| ==> CreatedKey(ps[i]) >= CreatedKey(ps[j])
  }

  /** Puts `p` in front of the first persona that is not newer than it. */
  function InsertByCreated(p: PersonaRecord, sorted: seq<PersonaRecord>): (r: seq<PersonaRecord>)
    requires NewestFirst(sorted)
    ensures NewestFirst(r)
    ensures multiset(r) == multiset(sorted) + multiset{p}
    ensures |r| == |sorted| + 1
  {
    if sorted == [] || CreatedKey(p) >= CreatedKey(sorted[0]) then [p] + sorted
    else
      var rest := InsertByCreated(p, sorted[1..]);
      assert sorted == [sorted[0]] + sorted[1..];
      var r := [sorted[0]] + rest;
      assert multiset(r) == multiset{sorted[0]} + multiset(rest);
      InsertedHead(sorted, p, rest);
      r
  }

  lemma InsertedHead(sorted: seq<PersonaRecord>, p: PersonaRecord, rest: seq<PersonaRecord>)
    requires sorted != [] && NewestFirst(sorted) && NewestFirst(rest)
    requires CreatedKey(p) < CreatedKey(sorted[0])
    requires multiset(rest) == multiset(sorted[1..]) + multiset{p}
    ensures NewestFirst([sorted[0]] + rest)
  {
    var r := [sorted[0]] + rest;
    forall j | 1 <= j < |r| ensures CreatedKey(r[0]) >= CreatedKey(r[j]) {
      assert r[j] == rest[j - 1];
      assert rest[j - 1] in multiset(rest);
      if rest[j - 1] != p {
        assert rest[j - 1] in multiset(sorted[1..]);
        var k :| 0 <= k < |sorted[1..]| && sorted[1..][k] == rest[j - 1];
        assert sorted[k + 1] == rest[j - 1];
      }
    }
  }

  /**
   * The sort behind the persona lists: `sort((a, b) => new Date(b.createdAt || 0) -
   * new Date(a.createdAt || 0))`, newest first, on a copy.
   */
  function SortByCreated(ps: seq<PersonaRecord>): (r: seq<PersonaRecord>)
    ensures NewestFirst(r)
    ensures multiset(r) == multiset(ps)
    ensures |r| == |ps|
  {
    if ps == [] then []
    else
      assert ps == [ps[0]] + ps[1..];
      InsertByCreated(ps[0], SortByCreated(ps[1..]))
  }

  /** The test "created at `k`", for comparing the personas that tie on the sort key. */
  function HasKey(k: int): PersonaRecord -> bool {
    p => CreatedKey(p) == k
  }

  /** Inserting `p` puts it in front of every persona it ties with and moves no other tie. */
  lemma {:induction false} InsertKeepsTies(p: PersonaRecord, sorted: seq<PersonaRecord>, k: int)
    requires NewestFirst(sorted)
    ensures Filter(InsertByCreated(p, sorted), HasKey(k))
            == (if CreatedKey(p) == k then [p] else []) + Filter(sorted, HasKey(k))
  {
    if sorted == [] || CreatedKey(p) >= CreatedKey(sorted[0]) {
      FilterCons(p, sorted, HasKey(k));
    } else {
      InsertKeepsTies(p, sorted[1..], k);
      TiesBehindHead(sorted[0], InsertByCreated(p, sorted[1..]), sorted[1..], p, k);
      assert [sorted[0]] + sorted[1..] == sorted;
    }
  }

  /** A head newer than `p` does not change how `p` stands among the ties at `k`. */
  lemma TiesBehindHead(head: PersonaRecord, rest: seq<PersonaRecord>, tail: seq<PersonaRecord>,
                       p: PersonaRecord, k: int)
    requires Filter(rest, HasKey(k)) == (if CreatedKey(p) == k then [p] else []) + Filter(tail, HasKey(k))
    requires CreatedKey(p) == k ==> CreatedKey(head) != k
    ensures Filter([head] + rest, HasKey(k))
            == (if CreatedKey(p) == k then [p] else []) + Filter([head] + tail, HasKey(k))
  {
    FilterCons(head, rest, HasKey(k));
    FilterCons(head, tail, HasKey(k));
  }

  /**
   * The sort is stable, as `Array.prototype.sort` is: the personas created at the same
   * time come out in the order they went in.
   */
  lemma {:induction false} SortIsStable(ps: seq<PersonaRecord>, k: int)
    ensures Filter(SortByCreated(ps), HasKey(k)) == Filter(ps, HasKey(k))
  {
    if ps != [] {
      SortIsStable(ps[1..], k);
      InsertKeepsTies(ps[0], SortByCreated(ps[1..]), k);
    }
  }

  /** Personas that all tie on the creation time are left in their order. */
  lemma AllTiedUnchanged(ps: seq<PersonaRecord>, k: int)
    requires forall i :: 0 <= i < |ps| ==> CreatedKey(ps[i]) == k
    ensures SortByCreated(ps) == ps
  {
    var sorted := SortByCreated(ps);
    forall i | 0 <= i < |sorted| ensures HasKey(k)(sorted[i]) {
      assert sorted[i] in multiset(ps);
    }
    FilterKeepsAll(sorted, HasKey(k));
    FilterKeepsAll(ps, HasKey(k));
    SortIsStable(ps, k);
  }

  /**
   * With nothing stored, and the three clock readings equal (the load happens within one
   * millisecond), the demonstration personas tie on creation time, so the recent list
   * shows them in their stored order: Tech Lead, Marketing Manager, Sales Executive.
   */
  lemma MockRecentInStoredOrder(clock: nat -> int)
    requires clock(0) == clock(1) == clock(2)
    ensures var ps := LoadStoredData(None, clock).personas;
            RecentPersonas(ps) == ps && |ps| == 3 && ps[0].id == 1 && ps[1].id == 2 && ps[2].id == 3
  {
    var ps := LoadStoredData(None, clock).personas;
    AllTiedUnchanged(ps, clock(0));
    assert SortByCreated(ps)[..3] == ps;
  }

  /**
   * With nothing stored and the clock moving on between readings, the demonstration
   * persona stamped last is the newest, so the recent list shows them in reverse order:
   * Sales Executive, Marketing Manager, Tech Lead.
   */
  lemma MockRecentWhenClockTicks(clock: nat -> int)
    requires clock(0) < clock(1) < clock(2)
    ensures var ps := LoadStoredData(None, clock).personas;
            |ps| == 3 && RecentPersonas(ps) == [ps[2], ps[1], ps[0]]
            && ps[0].id == 1 && ps[1].id == 2 && ps[2].id == 3
  {
    var ps := LoadStoredData(None, clock).personas;
    assert CreatedKey(ps[0]) < CreatedKey(ps[1]) < CreatedKey(ps[2]);
    RecentOfRising(ps);
  }

  /** At most five personas created in strictly rising order are all listed, newest (last) first. */
  lemma RecentOfRising(ps: seq<PersonaRecord>)
    requires |ps| <= 5
    requires forall i, j :: 0 <= i < j < |ps| ==> CreatedKey(ps[i]) < CreatedKey(ps[j])
    ensures |RecentPersonas(ps)| == |ps|
    ensures forall i :: 0 <= i < |ps| ==> RecentPersonas(ps)[i] == ps[|ps| - 1 - i]
  {
    SortRisingReverses(ps);
    assert RecentPersonas(ps) == SortByCreated(ps);
  }

  /** Personas created in strictly rising order come out of the sort in reverse. */
  lemma {:induction false} SortRisingReverses(ps: seq<PersonaRecord>)
    requires forall i, j :: 0 <= i < j < |ps| ==> CreatedKey(ps[i]) < CreatedKey(ps[j])
    ensures forall i :: 0 <= i < |ps| ==> SortByCreated(ps)[i] == ps[|ps| - 1 - i]
  {
    if ps != [] {
      var rest := SortByCreated(ps[1..]);
      SortRisingReverses(ps[1..]);
      forall i | 0 <= i < |rest| ensures CreatedKey(ps[0]) < CreatedKey(rest[i]) {
        assert rest[i] == ps[|ps| - 1 - i];
      }
      InsertOldest(ps[0], rest);
      assert SortByCreated(ps) == rest + [ps[0]];
      forall i | 0 <= i < |rest| ensures SortByCreated(ps)[i] == ps[|ps| - 1 - i] {
        assert ps[1..][|rest| - 1 - i] == ps[|ps| - 1 - i];
      }
    }
  }

  /** A persona older than every sorted one is inserted at the end. */
  lemma {:induction false} InsertOldest(p: PersonaRecord, sorted: seq<PersonaRecord>)
    requires NewestFirst(sorted)
    requires forall i :: 0 <= i < |sorted| ==> CreatedKey(p) < CreatedKey(sorted[i])
    ensures InsertByCreated(p, sorted) == sorted + [p]
  {
    if sorted != [] {
      InsertOldest(p, sorted[1..]);
      assert [sorted[0]] + (sorted[1..] + [p]) == sorted + [p];
    }
  }

  /** `sortedPersonas.slice(0, 5)`: the five newest personas, newest first. */
  function RecentPersonas(ps: seq<PersonaRecord>): (r: seq<PersonaRecord>)
    ensures |r| == if |ps| < 5 then |ps| else 5
    ensures NewestFirst(r)
    ensures multiset(r) <= multiset(ps)
  {
    var sorted := SortByCreated(ps);
    var n := if |ps| < 5 then |ps| else 5;
    assert sorted == sorted[..n] + sorted[n..];
    sorted[..n]
  }

  /**
   * Among personas created at the same time, the recent list shows the ones stored first,
   * in their stored order.
   */
  lemma RecentKeepsTieOrder(ps: seq<PersonaRecord>, k: int)
    ensures var shown := Filter(RecentPersonas(ps), HasKey(k));
            var all := Filter(ps, HasKey(k));
            |shown| <= |all| && shown == all[..|shown|]
  {
    var sorted := SortByCreated(ps);
    var n := if |ps| < 5 then |ps| else 5;
    assert sorted == sorted[..n] + sorted[n..];
    FilterConcat(sorted[..n], sorted[n..], HasKey(k));
    SortIsStable(ps, k);
  }

  /** No persona left out of the recent list is newer than one in it. */
  lemma RecentAreNewest(ps: seq<PersonaRecord>, q: PersonaRecord, p: PersonaRecord)
    requires q in ps && q !in RecentPersonas(ps) && p in RecentPersonas(ps)
    ensures CreatedKey(q) <= CreatedKey(p)
  {
    var sorted := SortByCreated(ps);
    var r := RecentPersonas(ps);
    assert q in multiset(sorted);
    var j :| 0 <= j < |sorted| && sorted[j] == q;
    var i :| 0 <= i < |r| && r[i] == p;
    assert sorted[i] == p;
    if j < |r| {
      assert r[j] == q;
    }
  }

  // ---------------------------------------------------------------------------
  // Canvas templates

  datatype CanvasTemplate = CanvasTemplate(id: string, name: string, description: string,
                                           content: map<SectionKey, string>)

  /** `getTemplates()` */
  const CanvasTemplates: seq<CanvasTemplate> := [
    CanvasTemplate("startup", "Tech Startup", "Perfect for software and technology startups", map[
      KeyPartners := "Cloud Providers\nTech Vendors",
      KeyActivities := "Product Development\nCustomer Support",
      ValuePropositions := "Innovative Solution\nSeamless Integration",
      CustomerRelationships := "Self Service\nAutomated Support",
      CustomerSegments := "Tech Companies\nStartups",
      KeyResources := "Development Team\nIPR",
      Channels := "Website\nApp Store",
      CostStructure := "Development\nMarketing",
      RevenueStreams := "Subscriptions\nPremium Features"]),
    CanvasTemplate("retail", "Retail Business", "Ideal for retail and e-commerce businesses", map[
      KeyPartners := "Suppliers\nLogistics Partners",
      KeyActivities := "Inventory Management\nCustomer Service",
      ValuePropositions := "Quality Products\nFast Delivery",
      CustomerRelationships := "Personal Service\nLoyalty Programs",
      CustomerSegments := "Online Shoppers\nRetail Customers",
      KeyResources := "Inventory\nWarehouses",
      Channels := "Online Store\nRetail Locations",
      CostStructure := "Inventory\nStaff\nRent",
      RevenueStreams := "Product Sales\nDelivery Fees"])
  ]

  /** Every section is present and starts with a character that is not white space. */
  predicate SectionsFilled(content: map<SectionKey, string>) {
    forall k :: k in content && content[k] != [] && !IsWhitespace(content[k][0])
  }

  lemma {:induction false} StartupFilled()
    ensures SectionsFilled(CanvasTemplates[0].content)
  {
    var c := CanvasTemplates[0].content;
    forall k ensures k in c && c[k] != [] && !IsWhitespace(c[k][0]) {
      match k
      case KeyPartners =>
      case KeyActivities =>
      case ValuePropositions =>
      case CustomerRelationships =>
      case CustomerSegments =>
      case KeyResources =>
      case Channels =>
      case CostStructure =>
      case RevenueStreams =>
    }
  }

  lemma {:induction false} RetailFilled()
    ensures SectionsFilled(CanvasTemplates[1].content)
  {
    var c := CanvasTemplates[1].content;
    forall k ensures k in c && c[k] != [] && !IsWhitespace(c[k][0]) {
      match k
      case KeyPartners =>
      case KeyActivities =>
      case ValuePropositions =>
      case CustomerRelationships =>
      case CustomerSegments =>
      case KeyResources =>
      case Channels =>
      case CostStructure =>
      case RevenueStreams =>
    }
  }

  /** A canvas whose sections are all filled is complete. */
  lemma FilledIsComplete(c: Canvas)
    requires SectionsFilled(c.content)
    ensures IsCanvasComplete(c)
  {
    forall k ensures NonBlank(c.content[k]) {
      NotAllWhitespace(c.content[k], c.content[k][0]);
    }
  }

  lemma {:induction false} SaasPlatformFilled()
    ensures SectionsFilled(SaasPlatform.content)
  {
    var c := SaasPlatform.content;
    forall k ensures k in c && c[k] != [] && !IsWhitespace(c[k][0]) {
      match k
      case KeyPartners =>
      case KeyActivities =>
      case ValuePropositions =>
      case CustomerRelationships =>
      case CustomerSegments =>
      case KeyResources =>
      case Channels =>
      case CostStructure =>
      case RevenueStreams =>
    }
  }

  lemma {:induction false} ECommerceStoreFilled()
    ensures SectionsFilled(ECommerceStore.content)
  {
    var c := ECommerceStore.content;
    forall k ensures k in c && c[k] != [] && !IsWhitespace(c[k][0]) {
      match k
      case KeyPartners =>
      case KeyActivities =>
      case ValuePropositions =>
      case CustomerRelationships =>
      case CustomerSegments =>
      case KeyResources =>
      case Channels =>
      case CostStructure =>
      case RevenueStreams =>
    }
  }

  lemma {:induction false} MobileAppFilled()
    ensures SectionsFilled(MobileApp.content)
  {
    var c := MobileApp.content;
    forall k ensures k in c && c[k] != [] && !IsWhitespace(c[k][0]) {
      match k
      case KeyPartners =>
      case KeyActivities =>
      case ValuePropositions =>
      case CustomerRelationships =>
      case CustomerSegments =>
      case KeyResources =>
      case Channels =>
      case CostStructure =>
      case RevenueStreams =>
    }
  }

  /**
   * With nothing stored, the dashboard shows the three demonstration personas and
   * canvases, and all three canvases count as complete.
   */
  lemma MockStats(clock: nat -> int)
    ensures UpdateStats(LoadStoredData(None, clock)) == Stats(3, 3, 3)
  {
    var d := LoadStoredData(None, clock);
    MockCanvasesComplete();
    assert d.canvases == MockData.canvases;
  }

  lemma MockCanvasesComplete()
    ensures forall i :: 0 <= i < |MockData.canvases| ==> IsCanvasComplete(MockData.canvases[i])
  {
    assert |MockData.canvases| == 3;
    forall i | 0 <= i < |MockData.canvases| ensures IsCanvasComplete(MockData.canvases[i]) {
      MockCanvasComplete(i);
    }
  }

  lemma MockCanvasComplete(i: nat)
    requires i < 3
    ensures IsCanvasComplete(MockData.canvases[i])
  {
    var c := MockData.canvases[i];
    if i == 0 {
      SaasPlatformFilled();
    } else if i == 1 {
      ECommerceStoreFilled();
    } else {
      MobileAppFilled();
    }
    FilledIsComplete(c);
  }

  /**
   * A built-in template, applied and then saved, gives a complete canvas: every one of
   * its sections is filled, and a load followed by a save keeps a filled section filled.
   */
  lemma TemplateSavesComplete(t: CanvasTemplate, id: int, name: string, today: string)
    requires t in CanvasTemplates
    ensures IsCanvasComplete(Canvas(id, name, today, EditorContent(LoadEditor(t.content))))
  {
    StartupFilled();
    RetailFilled();
    assert t == CanvasTemplates[0] || t == CanvasTemplates[1];
    var e := LoadEditor(t.content);
    forall k ensures NonBlank(Encode(e[k])) {
      NotAllWhitespace(t.content[k], t.content[k][0]);
      ReloadKeepsCompleteness(t.content[k]);
    }
  }

  // ---------------------------------------------------------------------------
  // Section items in the editor

  /** `addCanvasItem`: the prompt's text, as typed, goes at the end when its trim is non-empty. */
  function AddItem(items: seq<string>, answer: Option<string>): (r: seq<string>)
    ensures answer.Some? && NonBlank(answer.value) ==> r == items + [answer.value]
    ensures !(answer.Some? && NonBlank(answer.value)) ==> r == items
  {
    if answer.Some? && NonBlank(answer.value) then items + [answer.value] else items
  }

  /** An added item is stored trimmed after everything the section already kept. */
  lemma AddThenSave(items: seq<string>, text: string)
    requires NonBlank(text)
    ensures Clean(AddItem(items, Some(text))) == Clean(items) + [Trim(text)]
  {
    CleanConcat(items, [text]);
    CleanSingle(text);
  }

  /** `deleteCanvasItem`: the item goes only when the deletion is confirmed. */
  function DeleteItem(items: seq<string>, i: nat, confirmed: bool): (r: seq<string>)
    requires i < |items|
    ensures confirmed ==> |r| == |items| - 1 && r[..i] == items[..i] && r[i..] == items[i + 1..]
    ensures !confirmed ==> r == items
  {
    if confirmed then items[..i] + items[i + 1..] else items
  }

  /** Editing an item to blank text is saved as if the item were deleted. */
  lemma BlankEditSavesAsDelete(items: seq<string>, i: nat, text: string)
    requires i < |items| && AllWhitespace(text)
    ensures Encode(items[i := text]) == Encode(DeleteItem(items, i, true))
  {
    BlankEditDeletes(items, i, text);
  }

  /**
   * The dragover move on the editor: item `i` of section `src` is taken out and put in
   * section `dst` before the item `getDragAfterElement` picks, or at the end; `mids` are
   * the midpoints of `dst`'s items other than the dragged one.
   */
  function DragItem(e: Editor, src: SectionKey, i: nat, dst: SectionKey, y: int, mids: seq<int>): (r: Editor)
    requires FullEditor(e) && i < |e[src]|
    requires |mids| == if src == dst then |e[src]| - 1 else |e[dst]|
    ensures FullEditor(r)
    ensures src == dst ==> multiset(r[src]) == multiset(e[src])
    ensures src != dst ==> multiset(r[src]) + multiset(r[dst]) == multiset(e[src]) + multiset(e[dst])
    ensures src == dst ==>
              LandsAt(r[src], Landing(DragAfter(y, mids), |e[src]| - 1), e[src][i], Without(e[src], i))
    ensures src != dst ==> r[src] == Without(e[src], i)
    ensures src != dst ==> LandsAt(r[dst], Landing(DragAfter(y, mids), |e[dst]|), e[src][i], e[dst])
    ensures forall k :: k != src && k != dst ==> r[k] == e[k]
  {
    if src == dst then e[src := MoveWithin(e[src], i, y, mids)]
    else
      var moved := MoveAcross(e[src], i, e[dst], y, mids);
      e[src := moved.0][dst := moved.1]
  }

  /** The dashboard's state: the collections, the open canvas's id and the editor. */
  class DashboardManager {
    var personas: seq<PersonaRecord>
    var canvases: seq<Canvas>
    var currentCanvasId: Option<int>
    var editor: Editor

    ghost predicate Valid()
      reads this
    {
      FullEditor(editor)
    }

    function Data(): DashboardData
      reads this
    {
      DashboardData(personas, canvases)
    }

    /** The constructor's data part: the stored data loaded, no canvas open. */
    constructor (stored: Option<DashboardData>, clock: nat -> int)
      ensures Valid()
      ensures Data() == LoadStoredData(stored, clock)
      ensures currentCanvasId.None? && editor == EmptyEditor()
    {
      var data := LoadStoredData(stored, clock);
      personas := data.personas;
      canvases := data.canvases;
      currentCanvasId := None;
      editor := EmptyEditor();
    }

    /** `openCanvasModal(id)`: records the id, then loads the editor unless the id is unknown. */
    method OpenCanvasModal(id: Option<int>) returns (loaded: bool)
      requires Valid()
      modifies this
      ensures Valid()
      ensures Data() == old(Data()) && currentCanvasId == id
      ensures loaded == OpenCanvas(canvases, id).Some?
      ensures loaded ==> editor == OpenCanvas(canvases, id).value
      ensures !loaded ==> editor == old(editor)
    {
      currentCanvasId := id;
      var opening := OpenCanvas(canvases, id);
      loaded := opening.Some?;
      if loaded {
        editor := opening.value;
      }
    }

    /** `applyTemplate(t)`: an editor filled from the template, to be saved as a new canvas. */
    method ApplyTemplate(t: CanvasTemplate)
      requires Valid()
      modifies this
      ensures Valid()
      ensures Data() == old(Data()) && currentCanvasId.None?
      ensures editor == LoadEditor(t.content)
    {
      var _ := OpenCanvasModal(None);
      editor := LoadEditor(t.content);
      currentCanvasId := None;
    }

    /** `saveCurrentCanvas(showPrompt)` */
    method SaveCurrentCanvas(showPrompt: bool, answer: Option<string>, newId: int, today: string)
      requires Valid()
      modifies this
      ensures Valid()
      ensures personas == old(personas) && currentCanvasId == old(currentCanvasId) && editor == old(editor)
      ensures canvases == SaveCanvas(old(canvases), currentCanvasId, showPrompt, answer, EditorContent(editor),
                                     newId, today)
    {
      canvases := SaveCanvas(canvases, currentCanvasId, showPrompt, answer, EditorContent(editor), newId, today);
    }

    /** `deleteCanvas(id)` */
    method DeleteCanvas(id: int, confirmed: bool)
      modifies this
      ensures personas == old(personas) && currentCanvasId == old(currentCanvasId) && editor == old(editor)
      ensures canvases == DeleteConfirmed(old(canvases), CanvasId, id, confirmed)
    {
      if confirmed {
        canvases := RemoveId(canvases, CanvasId, id);
      }
    }

    /** `deletePersona(id)` */
    method DeletePersona(id: int, confirmed: bool)
      modifies this
      ensures canvases == old(canvases) && currentCanvasId == old(currentCanvasId) && editor == old(editor)
      ensures personas == DeleteConfirmed(old(personas), PersonaId, id, confirmed)
    {
      if confirmed {
        personas := RemoveId(personas, PersonaId, id);
      }
    }

    /** `duplicateCanvas(id)` */
    method DuplicateCanvas(id: int, newId: int, today: string)
      modifies this
      ensures personas == old(personas) && currentCanvasId == old(currentCanvasId) && editor == old(editor)
      ensures canvases == Duplicate(old(canvases), id, newId, today)
    {
      canvases := Duplicate(canvases, id, newId, today);
    }

    /** `addNewPersona(payload)` */
    method AddNewPersona(payload: PersonaPayload, newId: int, now: int)
      modifies this
      ensures canvases == old(canvases) && currentCanvasId == old(currentCanvasId) && editor == old(editor)
      ensures personas == NewPersona(old(personas), payload, newId, now)
    {
      personas := NewPersona(personas, payload, newId, now);
    }

    /**
     * `addCanvasItem`: the prompt's answer joins section `k` when its trim is non-empty,
     * and the canvas is then saved without asking for a name.
     */
    method AddCanvasItem(k: SectionKey, answer: Option<string>, newId: int, today: string)
      requires Valid()
      modifies this
      ensures Valid()
      ensures personas == old(personas) && currentCanvasId == old(currentCanvasId)
      ensures editor == old(editor)[k := AddItem(old(editor)[k], answer)]
      ensures answer.Some? && NonBlank(answer.value) ==>
                canvases == SaveCanvas(old(canvases), currentCanvasId, false, None, EditorContent(editor), newId, today)
      ensures !(answer.Some? && NonBlank(answer.value)) ==> canvases == old(canvases)
    {
      editor := editor[k := AddItem(editor[k], answer)];
      if answer.Some? && NonBlank(answer.value) {
        SaveCurrentCanvas(false, None, newId, today);
      }
    }

    /** `editCanvasItem`: item `i` of section `k` becomes `text` as typed, then the canvas is saved. */
    method EditCanvasItem(k: SectionKey, i: nat, text: string, newId: int, today: string)
      requires Valid() && i < |editor[k]|
      modifies this
      ensures Valid()
      ensures personas == old(personas) && currentCanvasId == old(currentCanvasId)
      ensures editor == old(editor)[k := old(editor)[k][i := text]]
      ensures canvases == SaveCanvas(old(canvases), currentCanvasId, false, None, EditorContent(editor), newId, today)
    {
      editor := editor[k := editor[k][i := text]];
      SaveCurrentCanvas(false, None, newId, today);
    }

    /** `deleteCanvasItem`: when confirmed, item `i` of section `k` goes and the canvas is saved. */
    method DeleteCanvasItem(k: SectionKey, i: nat, confirmed: bool, newId: int, today: string)
      requires Valid() && i < |editor[k]|
      modifies this
      ensures Valid()
      ensures personas == old(personas) && currentCanvasId == old(currentCanvasId)
      ensures editor == old(editor)[k := DeleteItem(old(editor)[k], i, confirmed)]
      ensures confirmed ==>
                canvases == SaveCanvas(old(canvases), currentCanvasId, false, None, EditorContent(editor), newId, today)
      ensures !confirmed ==> canvases == old(canvases)
    {
      editor := editor[k := DeleteItem(editor[k], i, confirmed)];
      if confirmed {
        SaveCurrentCanvas(false, None, newId, today);
      }
    }

    /** The dragover handler: the dragged item moves in the editor; nothing is saved. */
    method DragOver(src: SectionKey, i: nat, dst: SectionKey, y: int, mids: seq<int>)
      requires Valid() && i < |editor[src]|
      requires |mids| == if src == dst then |editor[src]| - 1 else |editor[dst]|
      modifies this
      ensures Valid()
      ensures Data() == old(Data()) && currentCanvasId == old(currentCanvasId)
      ensures editor == DragItem(old(editor), src, i, dst, y, mids)
    {
      editor := DragItem(editor, src, i, dst, y, mids);
    }
  }
}
