/**
 * The three tables of lib/db.js (owners, topics, materials) as in-memory
 * sequences in insertion order, and each exported operation as a function
 * from the tables before the call to what the call returns or throws and the
 * tables after it.  Every operation starts with `ensureSchema`, exactly as
 * the source does.
 *
 * A `SERIAL` column is a counter (`next...Id`); rows are kept in insertion
 * order, which is also `created_at` order.
 */
module Tables {
  import opened Common
  import opened Js

  const DEFAULT_SLUG := "default"
  const DEFAULT_NAME := "기본"
  const DEFAULT_SORT_ORDER := 999999
  const UNSORTED_TITLE := "미분류"

  datatype Owner = Owner(id: int, slug: string, name: string, sortOrder: int)

  datatype Topic = Topic(id: int, title: string, sortOrder: int, ownerId: Option<int>)

  datatype Material = Material(
    id: int,
    topicId: int,
    title: string,
    fileName: string,
    fileType: Option<string>,
    fileSize: Option<int>,
    blobUrl: string,
    isPublic: bool)

  datatype DbState = DbState(
    owners: seq<Owner>,
    topics: seq<Topic>,
    materials: seq<Material>,
    nextOwnerId: int,
    nextTopicId: int,
    nextMaterialId: int)

  /** The errors the db.js functions throw (or that Postgres raises for them). */
  datatype DbError =
    | OwnerNotFound
    | DefaultOwnerMissing
    | CannotDeleteDefaultOwner
    | InvalidInteger
    | NotNullViolation
    | ForeignKeyViolation
  {
    function Message(): (m: string)
      ensures m != ""
    {
      match this
      case OwnerNotFound => "Owner not found"
      case DefaultOwnerMissing => "Default owner missing"
      case CannotDeleteDefaultOwner => "Cannot delete default owner"
      case InvalidInteger => "invalid input syntax for type integer"
      case NotNullViolation => "null value violates not-null constraint"
      case ForeignKeyViolation => "insert or update violates foreign key constraint"
    }
  }

  /** What a call returns (or throws), and the tables after it. */
  datatype Outcome<T> = Outcome(result: Result<T, DbError>, db: DbState)

  const EMPTY := DbState([], [], [], 1, 1, 1)

  // ------------------------------------------------------------ sequences

  /** The table after an `UPDATE` that rewrites each row `x` to `f(x)`. */
  function MapSeq<T>(s: seq<T>, f: T -> T): (r: seq<T>)
    ensures |r| == |s| && forall i :: 0 <= i < |s| ==> r[i] == f(s[i])
  {
    seq(|s|, i requires 0 <= i < |s| => f(s[i]))
  }

  /** The rows of `s` that satisfy `keep`, in table order (a `WHERE` / `filter`). */
  function Filter<T(==,!new)>(s: seq<T>, keep: T -> bool): (r: seq<T>)
    ensures |r| <= |s|
    ensures forall x :: x in r <==> x in s && keep(x)
  {
    if s == [] then []
    else (if keep(s[0]) then [s[0]] else []) + Filter(s[1..], keep)
  }

  lemma {:induction false} FilterFilter<T(!new)>(s: seq<T>, p: T -> bool, q: T -> bool)
    requires forall x :: q(x) ==> p(x)
    ensures Filter(Filter(s, p), q) == Filter(s, q)
  {
    if s != [] {
      FilterFilter(s[1..], p, q);
      if p(s[0]) {
        assert Filter(s, p) == [s[0]] + Filter(s[1..], p);
        assert Filter(s, p)[0] == s[0] && Filter(s, p)[1..] == Filter(s[1..], p);
      } else {
        assert Filter(s, p) == Filter(s[1..], p);
      }
    }
  }

  lemma {:induction false} FilterAll<T(!new)>(s: seq<T>, keep: T -> bool)
    requires forall x :: x in s ==> keep(x)
    ensures Filter(s, keep) == s
  {
    if s != [] {
      assert forall x :: x in s[1..] ==> x in s;
      FilterAll(s[1..], keep);
    }
  }

  // ------------------------------------------------------------ lookups

  /** `SELECT ... FROM owners WHERE slug = $1` and `rows[0]`. */
  function FindOwnerBySlug(owners: seq<Owner>, slug: string): (r: Option<Owner>)
    ensures r.Some? ==> r.value in owners && r.value.slug == slug
    ensures r.None? <==> forall o :: o in owners ==> o.slug != slug
  {
    if owners == [] then None
    else if owners[0].slug == slug then Some(owners[0])
    else FindOwnerBySlug(owners[1..], slug)
  }

  ghost predicate HasOwner(owners: seq<Owner>, id: int) {
    exists o :: o in owners && o.id == id
  }

  predicate HasTopic(topics: seq<Topic>, id: int) {
    exists t :: t in topics && t.id == id
  }

  // ------------------------------------------------------------ invariant

  /** SERIAL ids are positive, increase in insertion order and stay below the counter. */
  ghost predicate IdsBelow(ids: seq<int>, next: int) {
    && 1 <= next
    && (forall i :: 0 <= i < |ids| ==> 1 <= ids[i] < next)
    && (forall i, j :: 0 <= i < j < |ids| ==> ids[i] < ids[j])
  }

  function OwnerIds(owners: seq<Owner>): seq<int> {
    seq(|owners|, i requires 0 <= i < |owners| => owners[i].id)
  }

  function TopicIds(topics: seq<Topic>): seq<int> {
    seq(|topics|, i requires 0 <= i < |topics| => topics[i].id)
  }

  function MaterialIds(materials: seq<Material>): seq<int> {
    seq(|materials|, i requires 0 <= i < |materials| => materials[i].id)
  }

  /**
   * What the schema enforces: primary keys from the sequences, `slug UNIQUE`,
   * `topics.owner_id REFERENCES owners(id)` and
   * `materials.topic_id REFERENCES topics(id)`.
   */
  ghost predicate WellFormed(s: DbState) {
    && IdsBelow(OwnerIds(s.owners), s.nextOwnerId)
    && IdsBelow(TopicIds(s.topics), s.nextTopicId)
    && IdsBelow(MaterialIds(s.materials), s.nextMaterialId)
    && (forall i, j :: 0 <= i < j < |s.owners| ==> s.owners[i].slug != s.owners[j].slug)
    && (forall t :: t in s.topics && t.ownerId.Some? ==> HasOwner(s.owners, t.ownerId.value))
    && (forall m :: m in s.materials ==> HasTopic(s.topics, m.topicId))
  }

  lemma EmptyWellFormed()
    ensures WellFormed(EMPTY)
  {
  }

  // ------------------------------------------------------------ ensureSchema

  function DefaultOwner(s: DbState): Option<Owner> {
    FindOwnerBySlug(s.owners, DEFAULT_SLUG)
  }

  /** `UPDATE owners SET sort_order = 999999 WHERE slug = 'default' AND sort_order < 999999` on one row. */
  function RaiseDefault(o: Owner): Owner {
    if o.slug == DEFAULT_SLUG && o.sortOrder < DEFAULT_SORT_ORDER then o.(sortOrder := DEFAULT_SORT_ORDER) else o
  }

  /** `UPDATE topics SET owner_id = $default WHERE owner_id IS NULL` on one row. */
  function AdoptOrphan(t: Topic, defaultId: int): Topic {
    if t.ownerId.None? then t.(ownerId := Some(defaultId)) else t
  }

  /** `INSERT INTO owners ... VALUES ('default', '기본', 999999) ON CONFLICT (slug) DO NOTHING` */
  function InsertDefaultOwner(s: DbState): DbState {
    if DefaultOwner(s).Some? then s
    else s.(owners := s.owners + [Owner(s.nextOwnerId, DEFAULT_SLUG, DEFAULT_NAME, DEFAULT_SORT_ORDER)],
            nextOwnerId := s.nextOwnerId + 1)
  }

  /**
   * `ensureSchema` (lib/db.js:28-69) on tables that already exist: insert the
   * default owner, raise its sort order, then give every ownerless topic the
   * id the sub-select finds (a NULL sub-select leaves the topics as they are).
   */
  function WithSchema(s: DbState): DbState {
    OrphansAdopted(DefaultOwnerRaised(s))
  }

  /** The owner statements of `ensureSchema`: insert the default owner if missing, then raise it. */
  function DefaultOwnerRaised(s: DbState): DbState {
    var s1 := InsertDefaultOwner(s);
    s1.(owners := MapSeq(s1.owners, RaiseDefault))
  }

  /** The topic statement of `ensureSchema`: ownerless topics go to the default owner, if there is one. */
  function OrphansAdopted(s: DbState): DbState {
    match DefaultOwner(s)
    case None => s
    case Some(d) => s.(topics := MapSeq(s.topics, t => AdoptOrphan(t, d.id)))
  }

  /** The state `ensureSchema` leaves behind. */
  ghost predicate Ready(s: DbState) {
    && DefaultOwner(s).Some?
    && DefaultOwner(s).value.sortOrder >= DEFAULT_SORT_ORDER
    && forall t :: t in s.topics ==> t.ownerId.Some?
  }

  lemma {:induction false} FindOwnerMapped(owners: seq<Owner>, f: Owner -> Owner, slug: string)
    requires forall o :: f(o).slug == o.slug
    ensures FindOwnerBySlug(MapSeq(owners, f), slug)
         == (match FindOwnerBySlug(owners, slug) case None => None case Some(o) => Some(f(o)))
  {
    if owners != [] {
      assert MapSeq(owners, f)[1..] == MapSeq(owners[1..], f);
      FindOwnerMapped(owners[1..], f, slug);
    }
  }

  lemma {:induction false} FindOwnerAppended(owners: seq<Owner>, o: Owner)
    requires forall x :: x in owners ==> x.slug != o.slug
    ensures FindOwnerBySlug(owners + [o], o.slug) == Some(o)
  {
    if owners != [] {
      assert (owners + [o])[1..] == owners[1..] + [o];
      assert forall x :: x in owners[1..] ==> x in owners;
      FindOwnerAppended(owners[1..], o);
    }
  }

  lemma InsertDefaultOwnerSpec(s: DbState)
    ensures DefaultOwner(s).Some? ==> InsertDefaultOwner(s) == s
    ensures DefaultOwner(s).None? ==>
      DefaultOwner(InsertDefaultOwner(s)) == Some(Owner(s.nextOwnerId, DEFAULT_SLUG, DEFAULT_NAME, DEFAULT_SORT_ORDER))
  {
    if DefaultOwner(s).None? {
      FindOwnerAppended(s.owners, Owner(s.nextOwnerId, DEFAULT_SLUG, DEFAULT_NAME, DEFAULT_SORT_ORDER));
    }
  }

  lemma DefaultOwnerRaisedSpec(s: DbState)
    ensures DefaultOwner(s).Some? ==>
      DefaultOwner(DefaultOwnerRaised(s)) == Some(RaiseDefault(DefaultOwner(s).value))
    ensures DefaultOwner(s).None? ==>
      DefaultOwner(DefaultOwnerRaised(s)) == Some(Owner(s.nextOwnerId, DEFAULT_SLUG, DEFAULT_NAME, DEFAULT_SORT_ORDER))
    ensures forall i :: 0 <= i < |s.owners| && s.owners[i].slug != DEFAULT_SLUG ==> DefaultOwnerRaised(s).owners[i] == s.owners[i]
    ensures DefaultOwnerRaised(s).topics == s.topics && DefaultOwnerRaised(s).materials == s.materials
  {
    var s1 := InsertDefaultOwner(s);
    InsertDefaultOwnerSpec(s);
    FindOwnerMapped(s1.owners, RaiseDefault, DEFAULT_SLUG);
    forall i | 0 <= i < |s.owners| && s.owners[i].slug != DEFAULT_SLUG
      ensures DefaultOwnerRaised(s).owners[i] == s.owners[i]
    {
      assert s1.owners[i] == s.owners[i];
    }
  }

  lemma OrphansAdoptedSpec(s: DbState)
    requires DefaultOwner(s).Some?
    ensures OrphansAdopted(s).owners == s.owners && OrphansAdopted(s).materials == s.materials
    ensures |OrphansAdopted(s).topics| == |s.topics|
    ensures forall i :: 0 <= i < |s.topics| ==>
      OrphansAdopted(s).topics[i] == AdoptOrphan(s.topics[i], DefaultOwner(s).value.id)
    ensures forall t :: t in OrphansAdopted(s).topics ==> t.ownerId.Some?
  {
    var r := OrphansAdopted(s);
    forall t | t in r.topics
      ensures t.ownerId.Some?
    {
      var i :| 0 <= i < |r.topics| && r.topics[i] == t;
    }
  }

  /** Which default owner `ensureSchema` leaves, and what it does to every other row. */
  lemma WithSchemaSpec(s: DbState)
    ensures Ready(WithSchema(s))
    ensures DefaultOwner(s).Some? ==>
      DefaultOwner(WithSchema(s)) == Some(RaiseDefault(DefaultOwner(s).value))
    ensures DefaultOwner(s).None? ==>
      DefaultOwner(WithSchema(s)) == Some(Owner(s.nextOwnerId, DEFAULT_SLUG, DEFAULT_NAME, DEFAULT_SORT_ORDER))
    ensures forall i :: 0 <= i < |s.owners| && s.owners[i].slug != DEFAULT_SLUG ==> WithSchema(s).owners[i] == s.owners[i]
    ensures |WithSchema(s).topics| == |s.topics|
    ensures forall i :: 0 <= i < |s.topics| ==>
      WithSchema(s).topics[i] ==
        (if s.topics[i].ownerId.None? then s.topics[i].(ownerId := Some(DefaultOwner(WithSchema(s)).value.id)) else s.topics[i])
    ensures WithSchema(s).materials == s.materials
  {
    var s2 := DefaultOwnerRaised(s);
    DefaultOwnerRaisedSpec(s);
    OrphansAdoptedSpec(s2);
    assert DefaultOwner(WithSchema(s)) == DefaultOwner(s2);
  }

  /** An `UPDATE` of owners that keeps every id and slug keeps the tables well formed. */
  lemma OwnersRewritten(s: DbState, owners: seq<Owner>)
    requires WellFormed(s)
    requires |owners| == |s.owners|
    requires forall i :: 0 <= i < |owners| ==> owners[i].id == s.owners[i].id && owners[i].slug == s.owners[i].slug
    ensures WellFormed(s.(owners := owners))
  {
    assert OwnerIds(owners) == OwnerIds(s.owners);
    forall t | t in s.topics && t.ownerId.Some?
      ensures HasOwner(owners, t.ownerId.value)
    {
      var o :| o in s.owners && o.id == t.ownerId.value;
      var k :| 0 <= k < |s.owners| && s.owners[k] == o;
      assert owners[k] in owners;
    }
  }

  /** An `UPDATE` of topics that keeps every id and points owner ids only at existing owners keeps the tables well formed. */
  lemma TopicsRewritten(s: DbState, topics: seq<Topic>)
    requires WellFormed(s)
    requires |topics| == |s.topics|
    requires forall i :: 0 <= i < |topics| ==> topics[i].id == s.topics[i].id
    requires forall i :: 0 <= i < |topics| && topics[i].ownerId.Some? ==> HasOwner(s.owners, topics[i].ownerId.value)
    ensures WellFormed(s.(topics := topics))
  {
    assert TopicIds(topics) == TopicIds(s.topics);
    forall m | m in s.materials
      ensures HasTopic(topics, m.topicId)
    {
      var t :| t in s.topics && t.id == m.topicId;
      var k :| 0 <= k < |s.topics| && s.topics[k] == t;
      assert topics[k] in topics;
    }
    forall t | t in topics && t.ownerId.Some?
      ensures HasOwner(s.owners, t.ownerId.value)
    {
      var k :| 0 <= k < |topics| && topics[k] == t;
    }
  }

  lemma InsertDefaultOwnerWellFormed(s: DbState)
    requires WellFormed(s)
    ensures WellFormed(InsertDefaultOwner(s))
  {
    var r := InsertDefaultOwner(s);
    if DefaultOwner(s).None? {
      var o := Owner(s.nextOwnerId, DEFAULT_SLUG, DEFAULT_NAME, DEFAULT_SORT_ORDER);
      assert r.owners == s.owners + [o];
      assert OwnerIds(r.owners) == OwnerIds(s.owners) + [o.id];
      forall t | t in r.topics && t.ownerId.Some?
        ensures HasOwner(r.owners, t.ownerId.value)
      {
        var x :| x in s.owners && x.id == t.ownerId.value;
        assert x in r.owners;
      }
    }
  }

  lemma DefaultOwnerRaisedWellFormed(s: DbState)
    requires WellFormed(s)
    ensures WellFormed(DefaultOwnerRaised(s))
  {
    var s1 := InsertDefaultOwner(s);
    InsertDefaultOwnerWellFormed(s);
    OwnersRewritten(s1, MapSeq(s1.owners, RaiseDefault));
  }

  lemma OrphansAdoptedWellFormed(s: DbState)
    requires WellFormed(s)
    ensures WellFormed(OrphansAdopted(s))
  {
    if DefaultOwner(s).Some? {
      var d := DefaultOwner(s).value;
      var topics := MapSeq(s.topics, t => AdoptOrphan(t, d.id));
      forall i | 0 <= i < |topics| && topics[i].ownerId.Some?
        ensures HasOwner(s.owners, topics[i].ownerId.value)
      {
        if s.topics[i].ownerId.None? {
          assert d in s.owners;
        } else {
          assert s.topics[i] in s.topics;
        }
      }
      TopicsRewritten(s, topics);
    }
  }

  lemma WithSchemaWellFormed(s: DbState)
    requires WellFormed(s)
    ensures WellFormed(WithSchema(s))
  {
    DefaultOwnerRaisedWellFormed(s);
    OrphansAdoptedWellFormed(DefaultOwnerRaised(s));
  }

  lemma WithSchemaIdempotent(s: DbState)
    ensures WithSchema(WithSchema(s)) == WithSchema(s)
  {
    var r := WithSchema(s);
    WithSchemaSpec(s);
    InsertDefaultOwnerSpec(r);
    var s1 := InsertDefaultOwner(s);
    assert forall i :: 0 <= i < |r.owners| ==> r.owners[i] == RaiseDefault(s1.owners[i]);
    assert MapSeq(r.owners, RaiseDefault) == r.owners;
    var r2 := r.(owners := MapSeq(r.owners, RaiseDefault));
    assert r2 == r;
    var d := DefaultOwner(r).value;
    assert forall i :: 0 <= i < |r.topics| ==> r.topics[i] in r.topics;
    assert MapSeq(r.topics, t => AdoptOrphan(t, d.id)) == r.topics;
  }

  // ------------------------------------------------------------ listTopicsWithMaterials

  /** `ORDER BY sort_order ASC, id ASC` */
  predicate TopicBefore(a: Topic, b: Topic) {
    a.sortOrder < b.sortOrder || (a.sortOrder == b.sortOrder && a.id <= b.id)
  }

  ghost predicate SortedTopics(ts: seq<Topic>) {
    forall i, j :: 0 <= i < j < |ts| ==> TopicBefore(ts[i], ts[j])
  }

  function InsertTopic(t: Topic, ts: seq<Topic>): (r: seq<Topic>)
    ensures multiset(r) == multiset(ts) + multiset{t}
  {
    if ts == [] || TopicBefore(t, ts[0]) then [t] + ts
    else
      assert ts == [ts[0]] + ts[1..];
      [ts[0]] + InsertTopic(t, ts[1..])
  }

  lemma {:induction false} InsertTopicSorted(t: Topic, ts: seq<Topic>)
    requires SortedTopics(ts)
    ensures SortedTopics(InsertTopic(t, ts))
  {
    if ts != [] && !TopicBefore(t, ts[0]) {
      var rest := InsertTopic(t, ts[1..]);
      InsertTopicSorted(t, ts[1..]);
      SortedHeadFirst(ts);
      forall j | 0 <= j < |rest|
        ensures TopicBefore(ts[0], rest[j])
      {
        assert rest[j] in multiset(rest);
      }
      var r := [ts[0]] + rest;
      assert forall j :: 1 <= j < |r| ==> r[j] == rest[j - 1];
    }
  }

  lemma SortedHeadFirst(ts: seq<Topic>)
    requires SortedTopics(ts) && ts != []
    ensures forall x :: x in multiset(ts[1..]) ==> TopicBefore(ts[0], x)
  {
    forall x | x in multiset(ts[1..])
      ensures TopicBefore(ts[0], x)
    {
      var k :| 0 <= k < |ts[1..]| && ts[1..][k] == x;
      assert ts[k + 1] == x;
    }
  }

  /** An insertion sort by `TopicBefore`: the topics in `ORDER BY sort_order, id` order. */
  function SortTopics(ts: seq<Topic>): (r: seq<Topic>)
    ensures multiset(r) == multiset(ts)
  {
    if ts == [] then []
    else
      assert ts == [ts[0]] + ts[1..];
      InsertTopic(ts[0], SortTopics(ts[1..]))
  }

  lemma {:induction false} SortTopicsSorted(ts: seq<Topic>)
    ensures SortedTopics(SortTopics(ts))
  {
    if ts != [] {
      SortTopicsSorted(ts[1..]);
      InsertTopicSorted(ts[0], SortTopics(ts[1..]));
    }
  }

  /** A topic row with the materials grouped under it. */
  datatype TopicView = TopicView(topic: Topic, materials: seq<Material>)

  /** `SELECT ... FROM topics WHERE owner_id = $1` before ordering. */
  function TopicsOf(topics: seq<Topic>, ownerId: int): seq<Topic> {
    Filter(topics, (t: Topic) => t.ownerId == Some(ownerId))
  }

  /** `materials.filter((m) => m.topic_id === t.id)` over rows in `created_at` order. */
  function MaterialsOf(materials: seq<Material>, topicId: int): seq<Material> {
    Filter(materials, (m: Material) => m.topicId == topicId)
  }

  /** `SELECT ... FROM materials WHERE topic_id = ANY($1) ORDER BY created_at ASC` */
  function MaterialsIn(materials: seq<Material>, ids: seq<int>): seq<Material> {
    Filter(materials, (m: Material) => m.topicId in ids)
  }

  function Grouped(topics: seq<Topic>, materials: seq<Material>): seq<TopicView> {
    seq(|topics|, i requires 0 <= i < |topics| => TopicView(topics[i], MaterialsOf(materials, topics[i].id)))
  }

  function ViewTopics(views: seq<TopicView>): seq<Topic> {
    seq(|views|, i requires 0 <= i < |views| => views[i].topic)
  }

  /** listTopicsWithMaterials after its `ensureSchema` (lib/db.js:74-94). */
  function ListTopics(s: DbState, slug: string): seq<TopicView> {
    var owner := FindOwnerBySlug(s.owners, slug);
    if owner.None? || owner.value.id == 0 then []
    else
      var topics := SortTopics(TopicsOf(s.topics, owner.value.id));
      var ids := TopicIds(topics);
      var materials := if |ids| > 0 then MaterialsIn(s.materials, ids) else [];
      Grouped(topics, materials)
  }

  /** `listTopicsWithMaterials(ownerSlug)` (lib/db.js:71-95). */
  function ListTopicsWithMaterials(s: DbState, slug: string): Outcome<seq<TopicView>> {
    var s1 := WithSchema(s);
    Outcome(Ok(ListTopics(s1, slug)), s1)
  }

  /**
   * An unknown slug lists nothing; a known one lists exactly that owner's
   * topics, in `(sort_order, id)` order, each with exactly the materials that
   * point at it, in insertion order.
   */
  lemma ListTopicsSpec(s: DbState, slug: string)
    ensures FindOwnerBySlug(s.owners, slug).None? ==> ListTopics(s, slug) == []
    ensures FindOwnerBySlug(s.owners, slug).Some? && FindOwnerBySlug(s.owners, slug).value.id != 0 ==>
      && SortedTopics(ViewTopics(ListTopics(s, slug)))
      && multiset(ViewTopics(ListTopics(s, slug))) == multiset(TopicsOf(s.topics, FindOwnerBySlug(s.owners, slug).value.id))
      && forall i :: 0 <= i < |ListTopics(s, slug)| ==>
           ListTopics(s, slug)[i].materials == MaterialsOf(s.materials, ListTopics(s, slug)[i].topic.id)
  {
    var owner := FindOwnerBySlug(s.owners, slug);
    if owner.Some? && owner.value.id != 0 {
      var topics := SortTopics(TopicsOf(s.topics, owner.value.id));
      SortTopicsSorted(TopicsOf(s.topics, owner.value.id));
      var ids := TopicIds(topics);
      var materials := if |ids| > 0 then MaterialsIn(s.materials, ids) else [];
      var r := Grouped(topics, materials);
      assert ListTopics(s, slug) == r;
      assert ViewTopics(r) == topics;
      forall i | 0 <= i < |r|
        ensures r[i].materials == MaterialsOf(s.materials, r[i].topic.id)
      {
        var id := topics[i].id;
        assert ids[i] == id;
        FilterFilter(s.materials, (m: Material) => m.topicId in ids, (m: Material) => m.topicId == id);
      }
    }
  }

  // ------------------------------------------------------------ updateTopicOrder

  /** The last position of `id` in `ids`. */
  function LastIndexOf(ids: seq<int>, id: int): (r: nat)
    requires id in ids
    ensures r < |ids| && ids[r] == id
    ensures forall j :: r < j < |ids| ==> ids[j] != id
  {
    if ids[|ids| - 1] == id then |ids| - 1
    else LastIndexOf(ids[..|ids| - 1], id)
  }

  /** `UPDATE topics SET sort_order = $1 WHERE id = $2` */
  function SetSortOrder(topics: seq<Topic>, id: int, order: int): seq<Topic> {
    MapSeq(topics, (t: Topic) => if t.id == id then t.(sortOrder := order) else t)
  }

  /** The topics after the updates the loop of updateTopicOrder issues for `ids`, one per position, in order. */
  function Reordered(topics: seq<Topic>, ids: seq<int>): seq<Topic> {
    if ids == [] then topics
    else SetSortOrder(Reordered(topics, ids[..|ids| - 1]), ids[|ids| - 1], |ids| - 1)
  }

  /** Each listed topic ends with the last position of its id in `ids`; every other topic is untouched. */
  lemma {:induction false} ReorderedSpec(topics: seq<Topic>, ids: seq<int>)
    ensures |Reordered(topics, ids)| == |topics|
    ensures forall i :: 0 <= i < |topics| ==>
      Reordered(topics, ids)[i] ==
        (if topics[i].id in ids then topics[i].(sortOrder := LastIndexOf(ids, topics[i].id)) else topics[i])
  {
    if ids != [] {
      var front := ids[..|ids| - 1];
      var last := ids[|ids| - 1];
      ReorderedSpec(topics, front);
      assert ids == front + [last];
      forall i | 0 <= i < |topics|
        ensures Reordered(topics, ids)[i] ==
          (if topics[i].id in ids then topics[i].(sortOrder := LastIndexOf(ids, topics[i].id)) else topics[i])
      {
        if topics[i].id != last && topics[i].id in ids {
          assert topics[i].id in front;
        }
      }
    }
  }

  /** `updateTopicOrder(reorderedIds)` (lib/db.js:123-130). */
  function UpdateTopicOrder(s: DbState, ids: seq<int>): Outcome<()> {
    var s1 := WithSchema(s);
    Outcome(Ok(()), s1.(topics := Reordered(s1.topics, ids)))
  }

  lemma UpdateTopicOrderWellFormed(s: DbState, ids: seq<int>)
    requires WellFormed(s)
    ensures WellFormed(UpdateTopicOrder(s, ids).db)
  {
    var s1 := WithSchema(s);
    WithSchemaWellFormed(s);
    ReorderedSpec(s1.topics, ids);
    var topics := Reordered(s1.topics, ids);
    forall i | 0 <= i < |topics| && topics[i].ownerId.Some?
      ensures HasOwner(s1.owners, topics[i].ownerId.value)
    {
      assert s1.topics[i] in s1.topics;
    }
    TopicsRewritten(s1, topics);
  }

  // ------------------------------------------------------------ createTopic

  /** `createTopic(title, sortOrder, ownerSlug)` (lib/db.js:97-107). */
  function CreateTopic(s: DbState, title: string, sortOrder: int, slug: string): Outcome<Topic> {
    var s1 := WithSchema(s);
    match FindOwnerBySlug(s1.owners, slug)
    case None => Outcome(Err(OwnerNotFound), s1)
    case Some(o) =>
      if o.id == 0 then Outcome(Err(OwnerNotFound), s1)
      else
        var t := Topic(s1.nextTopicId, title, sortOrder, Some(o.id));
        Outcome(Ok(t), s1.(topics := s1.topics + [t], nextTopicId := s1.nextTopicId + 1))
  }

  /**
   * createTopic fails exactly when the slug names no owner; otherwise it
   * appends one topic with a fresh id, owned by that owner.
   */
  lemma CreateTopicSpec(s: DbState, title: string, sortOrder: int, slug: string)
    requires WellFormed(s)
    ensures var s0 := WithSchema(s); var o := CreateTopic(s, title, sortOrder, slug);
      && (o.result.Err? <==> FindOwnerBySlug(s0.owners, slug).None?)
      && (o.result.Err? ==> o.result.error == OwnerNotFound && o.db == s0)
      && (o.result.Ok? ==>
            && o.db.topics == s0.topics + [o.result.value]
            && o.db.owners == s0.owners && o.db.materials == s0.materials
            && o.result.value.id !in TopicIds(s0.topics)
            && o.result.value == Topic(o.result.value.id, title, sortOrder, Some(FindOwnerBySlug(s0.owners, slug).value.id)))
      && WellFormed(o.db)
  {
    var s0 := WithSchema(s);
    WithSchemaWellFormed(s);
    var found := FindOwnerBySlug(s0.owners, slug);
    if found.Some? {
      var k :| 0 <= k < |s0.owners| && s0.owners[k] == found.value;
      assert OwnerIds(s0.owners)[k] == found.value.id;
      AppendTopicWellFormed(s0, Topic(s0.nextTopicId, title, sortOrder, Some(found.value.id)));
    }
  }

  /** Appending a topic with the next id and an existing (or no) owner keeps the tables well formed. */
  lemma AppendTopicWellFormed(s: DbState, t: Topic)
    requires WellFormed(s)
    requires t.id == s.nextTopicId
    requires t.ownerId.Some? ==> HasOwner(s.owners, t.ownerId.value)
    ensures t.id !in TopicIds(s.topics)
    ensures WellFormed(s.(topics := s.topics + [t], nextTopicId := s.nextTopicId + 1))
  {
    var r := s.(topics := s.topics + [t], nextTopicId := s.nextTopicId + 1);
    assert TopicIds(r.topics) == TopicIds(s.topics) + [t.id];
    forall m | m in r.materials
      ensures HasTopic(r.topics, m.topicId)
    {
      var x :| x in s.topics && x.id == m.topicId;
      assert x in r.topics;
    }
    forall x | x in r.topics && x.ownerId.Some?
      ensures HasOwner(r.owners, x.ownerId.value)
    {
      if x != t {
        assert x in s.topics;
      }
    }
  }

  // ------------------------------------------------------------ createMaterial

  /** The fields createMaterial receives, as its callers build them. */
  datatype MaterialInput = MaterialInput(
    topicId: JsNumber,
    title: JsValue,
    fileName: JsValue,
    fileType: JsValue,
    fileSize: Option<JsNumber>,
    blobUrl: string)

  /** A parameter bound to a TEXT column: JS `null` and `undefined` become NULL, anything else its string form. */
  function SqlText(v: JsValue): Option<string> {
    if v.Undefined? || v.Null? then None else Some(ToStr(v))
  }

  /** `fileType || null` */
  function StoredType(v: JsValue): Option<string> {
    if Truthy(v) then SqlText(v) else None
  }

  /** `fileSize || null` (`None` is a JS `null`). */
  function StoredSize(size: Option<JsNumber>): Option<int> {
    match size
    case Some(Int(n)) => if n != 0 then Some(n) else None
    case _ => None
  }

  /**
   * The `INSERT INTO materials`: a NaN `topic_id` is rejected when the
   * parameter is converted, a NULL title or file name by `NOT NULL`, an
   * unknown topic by the foreign key; `is_public` takes its default.
   */
  function InsertMaterial(s: DbState, input: MaterialInput): Outcome<Material> {
    if input.topicId.NaN? then Outcome(Err(InvalidInteger), s)
    else if SqlText(input.title).None? || SqlText(input.fileName).None? then Outcome(Err(NotNullViolation), s)
    else if !HasTopic(s.topics, input.topicId.i) then Outcome(Err(ForeignKeyViolation), s)
    else
      var m := Material(s.nextMaterialId, input.topicId.i, SqlText(input.title).value, SqlText(input.fileName).value,
                        StoredType(input.fileType), StoredSize(input.fileSize), input.blobUrl, true);
      Outcome(Ok(m), s.(materials := s.materials + [m], nextMaterialId := s.nextMaterialId + 1))
  }

  /** `createMaterial({...})` (lib/db.js:132-141). */
  function CreateMaterial(s: DbState, input: MaterialInput): Outcome<Material> {
    InsertMaterial(WithSchema(s), input)
  }

  /**
   * createMaterial succeeds exactly for an integer topic id of an existing
   * topic and a non-null title and file name; it then appends one row whose
   * falsy `file_type` and `file_size` are NULL and whose `is_public` is true.
   */
  lemma CreateMaterialSpec(s: DbState, input: MaterialInput)
    ensures var s0 := WithSchema(s); var o := CreateMaterial(s, input);
      && (o.result.Ok? <==>
            && input.topicId.Int?
            && !(input.title.Undefined? || input.title.Null?)
            && !(input.fileName.Undefined? || input.fileName.Null?)
            && HasTopic(s0.topics, input.topicId.i))
      && (o.result.Err? ==> o.db == s0)
      && (o.result.Ok? ==>
            var m := o.result.value;
            && o.db.materials == s0.materials + [m]
            && o.db.owners == s0.owners && o.db.topics == s0.topics
            && m.id == s0.nextMaterialId
            && Some(m.topicId) == (if input.topicId.Int? then Some(input.topicId.i) else None)
            && m.title == ToStr(input.title) && m.fileName == ToStr(input.fileName)
            && (m.fileType.None? <==> !Truthy(input.fileType))
            && (m.fileSize.None? <==> !(input.fileSize.Some? && NumberTruthy(input.fileSize.value)))
            && (m.fileSize.Some? ==> input.fileSize == Some(Int(m.fileSize.value)))
            && m.blobUrl == input.blobUrl
            && m.isPublic)
  {
  }

  /** A failed createMaterial leaves the tables as its ensureSchema left them. */
  lemma CreateMaterialFailed(s: DbState, input: MaterialInput)
    requires CreateMaterial(s, input).result.Err?
    ensures CreateMaterial(s, input).db == WithSchema(s)
    ensures CreateMaterial(s, input).db.materials == s.materials
  {
    WithSchemaMaterials(s);
  }

  /** The row a successful createMaterial appends, column by column. */
  lemma CreateMaterialRow(s: DbState, input: MaterialInput)
    requires CreateMaterial(s, input).result.Ok?
    ensures var o := CreateMaterial(s, input); var m := o.result.value;
      && o.db.materials == WithSchema(s).materials + [m]
      && input.topicId == Int(m.topicId)
      && m.title == ToStr(input.title) && m.fileName == ToStr(input.fileName)
      && m.fileType == StoredType(input.fileType)
      && m.fileSize == StoredSize(input.fileSize)
      && m.blobUrl == input.blobUrl
      && m.isPublic
  {
  }

  /** ensureSchema never touches the materials. */
  lemma WithSchemaMaterials(s: DbState)
    ensures WithSchema(s).materials == s.materials
  {
  }

  lemma CreateMaterialWellFormed(s: DbState, input: MaterialInput)
    requires WellFormed(s)
    ensures WellFormed(CreateMaterial(s, input).db)
  {
    var s0 := WithSchema(s);
    WithSchemaWellFormed(s);
    var o := InsertMaterial(s0, input);
    if o.result.Ok? {
      var m := o.result.value;
      assert MaterialIds(o.db.materials) == MaterialIds(s0.materials) + [m.id];
      forall x | x in o.db.materials
        ensures HasTopic(o.db.topics, x.topicId)
      {
        if x != m {
          assert x in s0.materials;
        }
      }
    }
  }

  /** A `WHERE` keeps any pairwise relation the rows satisfy in table order. */
  lemma {:induction false} FilterPairwise<T(!new)>(s: seq<T>, keep: T -> bool, rel: (T, T) -> bool)
    requires forall i, j :: 0 <= i < j < |s| ==> rel(s[i], s[j])
    ensures forall i, j :: 0 <= i < j < |Filter(s, keep)| ==> rel(Filter(s, keep)[i], Filter(s, keep)[j])
  {
    if s != [] {
      FilterPairwise(s[1..], keep, rel);
      var rest := Filter(s[1..], keep);
      forall j | 0 <= j < |rest|
        ensures rel(s[0], rest[j])
      {
        assert rest[j] in s[1..];
        var k :| 0 <= k < |s[1..]| && s[1..][k] == rest[j];
        assert s[k + 1] == rest[j];
      }
      var r := Filter(s, keep);
      if keep(s[0]) {
        assert r == [s[0]] + rest;
        forall i, j | 0 <= i < j < |r|
          ensures rel(r[i], r[j])
        {
          assert r[j] == rest[j - 1];
          if i > 0 {
            assert r[i] == rest[i - 1];
          }
        }
      } else {
        assert r == rest;
      }
    }
  }

  /** An `UPDATE` of materials that keeps every id and points only at existing topics keeps the tables well formed. */
  lemma MaterialsRewritten(s: DbState, materials: seq<Material>)
    requires WellFormed(s)
    requires |materials| == |s.materials|
    requires forall i :: 0 <= i < |materials| ==> materials[i].id == s.materials[i].id
    requires forall i :: 0 <= i < |materials| ==> HasTopic(s.topics, materials[i].topicId)
    ensures WellFormed(s.(materials := materials))
  {
    assert MaterialIds(materials) == MaterialIds(s.materials);
    forall m | m in materials
      ensures HasTopic(s.topics, m.topicId)
    {
      var k :| 0 <= k < |materials| && materials[k] == m;
    }
  }

  // ------------------------------------------------------------ deleteMaterial

  /** `SELECT ... FROM materials WHERE id = $1` and `rows[0]`. */
  function FindMaterial(materials: seq<Material>, id: int): (r: Option<Material>)
    ensures r.Some? ==> r.value in materials && r.value.id == id
    ensures r.None? <==> forall m :: m in materials ==> m.id != id
  {
    if materials == [] then None
    else if materials[0].id == id then Some(materials[0])
    else FindMaterial(materials[1..], id)
  }

  /** `deleteMaterial(id)` (lib/db.js:143-147): the `blob_url` of the deleted row, if there was one. */
  function DeleteMaterial(s: DbState, id: int): Outcome<Option<string>> {
    var s1 := WithSchema(s);
    var found := FindMaterial(s1.materials, id);
    Outcome(Ok(if found.Some? then Some(found.value.blobUrl) else None),
            s1.(materials := Filter(s1.materials, (m: Material) => m.id != id)))
  }

  /** deleteMaterial removes exactly the rows with that id and reports the URL of the one it removed. */
  lemma DeleteMaterialSpec(s: DbState, id: int)
    ensures var s0 := WithSchema(s); var o := DeleteMaterial(s, id);
      && o.result.Ok?
      && (forall m :: m in o.db.materials <==> m in s0.materials && m.id != id)
      && (o.result.value.None? <==> forall m :: m in s0.materials ==> m.id != id)
      && (o.result.value.Some? ==> exists m :: m in s0.materials && m.id == id && m.blobUrl == o.result.value.value)
      && o.db.owners == s0.owners && o.db.topics == s0.topics
  {
  }

  lemma DeleteMaterialWellFormed(s: DbState, id: int)
    requires WellFormed(s)
    ensures WellFormed(DeleteMaterial(s, id).db)
  {
    var s0 := WithSchema(s);
    WithSchemaWellFormed(s);
    var keep := (m: Material) => m.id != id;
    var r := Filter(s0.materials, keep);
    var before := (a: Material, b: Material) => a.id < b.id;
    forall i, j | 0 <= i < j < |s0.materials|
      ensures before(s0.materials[i], s0.materials[j])
    {
      assert MaterialIds(s0.materials)[i] < MaterialIds(s0.materials)[j];
    }
    FilterPairwise(s0.materials, keep, before);
    assert forall i, j :: 0 <= i < j < |r| ==> before(r[i], r[j]);
    forall i | 0 <= i < |r|
      ensures 1 <= r[i].id < s0.nextMaterialId
    {
      assert r[i] in s0.materials;
      var k :| 0 <= k < |s0.materials| && s0.materials[k] == r[i];
      assert MaterialIds(s0.materials)[k] == r[i].id;
    }
  }

  // ------------------------------------------------------------ createOwner

  /** `UPDATE owners SET name = $2 WHERE slug = $1` */
  function Rename(owners: seq<Owner>, slug: string, name: string): seq<Owner> {
    MapSeq(owners, (o: Owner) => if o.slug == slug then o.(name := name) else o)
  }

  /** `createOwner({ slug, name, sortOrder })` (lib/db.js:166-175): an upsert on `slug`. */
  function CreateOwner(s: DbState, slug: string, name: string, sortOrder: int): Outcome<Owner> {
    var s1 := WithSchema(s);
    match FindOwnerBySlug(s1.owners, slug)
    case Some(o) => Outcome(Ok(o.(name := name)), s1.(owners := Rename(s1.owners, slug, name)))
    case None =>
      var o := Owner(s1.nextOwnerId, slug, name, sortOrder);
      Outcome(Ok(o), s1.(owners := s1.owners + [o], nextOwnerId := s1.nextOwnerId + 1))
  }

  /**
   * An existing slug keeps its id and sort order and only changes its name;
   * a new slug gets a fresh row with the given sort order.  Either way the
   * slug then finds the returned row.
   */
  lemma CreateOwnerSpec(s: DbState, slug: string, name: string, sortOrder: int)
    ensures var s0 := WithSchema(s); var o := CreateOwner(s, slug, name, sortOrder);
      && o.result.Ok?
      && o.result.value.slug == slug && o.result.value.name == name
      && FindOwnerBySlug(o.db.owners, slug) == Some(o.result.value)
      && o.db.topics == s0.topics && o.db.materials == s0.materials
      && (FindOwnerBySlug(s0.owners, slug).Some? ==>
            var old_ := FindOwnerBySlug(s0.owners, slug).value;
            && o.result.value == old_.(name := name)
            && |o.db.owners| == |s0.owners|
            && forall i :: 0 <= i < |s0.owners| ==>
                 o.db.owners[i] == (if s0.owners[i].slug == slug then s0.owners[i].(name := name) else s0.owners[i]))
      && (FindOwnerBySlug(s0.owners, slug).None? ==>
            && o.db.owners == s0.owners + [o.result.value]
            && o.result.value == Owner(s0.nextOwnerId, slug, name, sortOrder))
  {
    var s0 := WithSchema(s);
    var rename := (o: Owner) => if o.slug == slug then o.(name := name) else o;
    if FindOwnerBySlug(s0.owners, slug).Some? {
      FindOwnerMapped(s0.owners, rename, slug);
    } else {
      FindOwnerAppended(s0.owners, Owner(s0.nextOwnerId, slug, name, sortOrder));
    }
  }

  lemma CreateOwnerWellFormed(s: DbState, slug: string, name: string, sortOrder: int)
    requires WellFormed(s)
    ensures WellFormed(CreateOwner(s, slug, name, sortOrder).db)
  {
    var s0 := WithSchema(s);
    WithSchemaWellFormed(s);
    if FindOwnerBySlug(s0.owners, slug).Some? {
      OwnersRewritten(s0, Rename(s0.owners, slug, name));
    } else {
      var o := Owner(s0.nextOwnerId, slug, name, sortOrder);
      var r := s0.(owners := s0.owners + [o], nextOwnerId := s0.nextOwnerId + 1);
      assert OwnerIds(r.owners) == OwnerIds(s0.owners) + [o.id];
      forall i, j | 0 <= i < j < |r.owners|
        ensures r.owners[i].slug != r.owners[j].slug
      {
        if j == |s0.owners| {
          assert s0.owners[i] in s0.owners;
        }
      }
      forall t | t in r.topics && t.ownerId.Some?
        ensures HasOwner(r.owners, t.ownerId.value)
      {
        var x :| x in s0.owners && x.id == t.ownerId.value;
        assert x in r.owners;
      }
    }
  }

  // ------------------------------------------------------------ moveMaterialToOwner

  /** `SELECT id FROM topics WHERE owner_id = $1 AND title = '미분류' LIMIT 1` */
  function FindUnsorted(topics: seq<Topic>, ownerId: int): (r: Option<Topic>)
    ensures r.Some? ==> r.value in topics && r.value.ownerId == Some(ownerId) && r.value.title == UNSORTED_TITLE
    ensures r.None? <==> forall t :: t in topics ==> !(t.ownerId == Some(ownerId) && t.title == UNSORTED_TITLE)
  {
    if topics == [] then None
    else if topics[0].ownerId == Some(ownerId) && topics[0].title == UNSORTED_TITLE then Some(topics[0])
    else FindUnsorted(topics[1..], ownerId)
  }

  /**
   * `getOrCreateUnsortedTopic(ownerSlug)` (lib/db.js:184-193); its own
   * `ensureSchema` and the one inside getOwnerBySlug both run first.
   */
  function GetOrCreateUnsortedTopic(s: DbState, slug: string): Outcome<Topic> {
    var s1 := WithSchema(WithSchema(s));
    match FindOwnerBySlug(s1.owners, slug)
    case None => Outcome(Err(OwnerNotFound), s1)
    case Some(owner) =>
      match FindUnsorted(s1.topics, owner.id)
      case Some(t) => Outcome(Ok(t), s1)
      case None => CreateTopic(s1, UNSORTED_TITLE, 0, slug)
  }

  /** `UPDATE materials SET topic_id = $1 WHERE id = $2` */
  function MoveMaterial(materials: seq<Material>, id: int, topicId: int): seq<Material> {
    MapSeq(materials, (m: Material) => if m.id == id then m.(topicId := topicId) else m)
  }

  /** `moveMaterialToOwner(materialId, ownerSlug)` (lib/db.js:195-199). */
  function MoveMaterialToOwner(s: DbState, materialId: int, slug: string): Outcome<()> {
    var target := GetOrCreateUnsortedTopic(WithSchema(s), slug);
    match target.result
    case Err(e) => Outcome(Err(e), target.db)
    case Ok(t) => Outcome(Ok(()), target.db.(materials := MoveMaterial(target.db.materials, materialId, t.id)))
  }

  /**
   * An existing 미분류 topic of the owner (the one FindUnsorted picks) is
   * reused when there is one; otherwise
   * exactly one is created, with sort order 0.  The result is always a
   * 미분류 topic of that owner.
   */
  lemma GetOrCreateUnsortedTopicSpec(s: DbState, slug: string)
    requires WellFormed(s)
    ensures var s0 := WithSchema(s); var o := GetOrCreateUnsortedTopic(s, slug);
      && (o.result.Err? <==> FindOwnerBySlug(s0.owners, slug).None?)
      && (o.result.Err? ==> o.result.error == OwnerNotFound && o.db == s0)
      && (o.result.Ok? ==>
            var owner := FindOwnerBySlug(s0.owners, slug).value;
            && o.result.value.ownerId == Some(owner.id)
            && o.result.value.title == UNSORTED_TITLE
            && o.result.value in o.db.topics
            && o.db.owners == s0.owners && o.db.materials == s0.materials
            && (FindUnsorted(s0.topics, owner.id).Some? ==>
                  o.result.value == FindUnsorted(s0.topics, owner.id).value && o.db == s0)
            && (FindUnsorted(s0.topics, owner.id).None? ==>
                  o.db.topics == s0.topics + [Topic(s0.nextTopicId, UNSORTED_TITLE, 0, Some(owner.id))]))
      && WellFormed(o.db)
  {
    var s0 := WithSchema(s);
    WithSchemaIdempotent(s);
    WithSchemaWellFormed(s);
    WithSchemaIdempotent(s0);
    var found := FindOwnerBySlug(s0.owners, slug);
    if found.Some? && FindUnsorted(s0.topics, found.value.id).None? {
      CreateTopicSpec(s0, UNSORTED_TITLE, 0, slug);
    }
  }

  /**
   * moveMaterialToOwner fails only for an unknown slug, leaving the material
   * where it was; otherwise it points the material with that id (and no
   * other) at the owner's 미분류 topic, adds at most that one topic and
   * leaves the owners alone.
   */
  lemma MoveMaterialToOwnerSpec(s: DbState, materialId: int, slug: string)
    requires WellFormed(s)
    ensures var s0 := WithSchema(s); var o := MoveMaterialToOwner(s, materialId, slug);
      && (o.result.Err? <==> FindOwnerBySlug(s0.owners, slug).None?)
      && (o.result.Err? ==> o.db == s0)
      && (o.result.Ok? ==>
            var target := GetOrCreateUnsortedTopic(s0, slug).result.value;
            && target.ownerId == Some(FindOwnerBySlug(s0.owners, slug).value.id)
            && target.title == UNSORTED_TITLE
            && o.db.owners == s0.owners
            && o.db.topics == GetOrCreateUnsortedTopic(s0, slug).db.topics
            && (o.db.topics == s0.topics || o.db.topics == s0.topics + [target])
            && |o.db.materials| == |s0.materials|
            && forall i :: 0 <= i < |s0.materials| ==>
                 o.db.materials[i] ==
                   (if s0.materials[i].id == materialId then s0.materials[i].(topicId := target.id) else s0.materials[i]))
  {
    var s0 := WithSchema(s);
    WithSchemaWellFormed(s);
    GetOrCreateUnsortedTopicSpec(s0, slug);
    WithSchemaIdempotent(s);
  }

  lemma MoveMaterialToOwnerWellFormed(s: DbState, materialId: int, slug: string)
    requires WellFormed(s)
    ensures WellFormed(MoveMaterialToOwner(s, materialId, slug).db)
  {
    var s0 := WithSchema(s);
    WithSchemaWellFormed(s);
    GetOrCreateUnsortedTopicSpec(s0, slug);
    var target := GetOrCreateUnsortedTopic(s0, slug);
    if target.result.Ok? {
      var t := target.result.value;
      var materials := MoveMaterial(target.db.materials, materialId, t.id);
      forall i | 0 <= i < |materials|
        ensures HasTopic(target.db.topics, materials[i].topicId)
      {
        assert target.db.materials[i] in target.db.materials;
      }
      MaterialsRewritten(target.db, materials);
    }
  }

  // ------------------------------------------------------------ deleteOwner

  /** `UPDATE topics SET owner_id = $to WHERE owner_id = $from` */
  function Reassign(topics: seq<Topic>, from: int, to: int): seq<Topic> {
    MapSeq(topics, (t: Topic) => if t.ownerId == Some(from) then t.(ownerId := Some(to)) else t)
  }

  /**
   * `deleteOwner(ownerId)` (lib/db.js:222-232); its own `ensureSchema` and
   * the one inside getOwnerBySlug both run first.
   */
  function DeleteOwner(s: DbState, ownerId: int): Outcome<()> {
    var s1 := WithSchema(WithSchema(s));
    match DefaultOwner(s1)
    case None => Outcome(Err(DefaultOwnerMissing), s1)
    case Some(d) =>
      if d.id == ownerId then Outcome(Err(CannotDeleteDefaultOwner), s1)
      else Outcome(Ok(()), s1.(topics := Reassign(s1.topics, ownerId, d.id),
                              owners := Filter(s1.owners, (o: Owner) => o.id != ownerId)))
  }

  /**
   * deleteOwner refuses the default owner (and never reports it missing);
   * for any other id it hands that owner's topics to the default owner and
   * removes the owner row, so no topic refers to it any more.
   */
  lemma DeleteOwnerSpec(s: DbState, ownerId: int)
    ensures var s0 := WithSchema(s); var o := DeleteOwner(s, ownerId);
      && DefaultOwner(s0).Some?
      && (o.result.Err? <==> ownerId == DefaultOwner(s0).value.id)
      && (o.result.Err? ==> o.result.error == CannotDeleteDefaultOwner && o.db == s0)
      && (o.result.Ok? ==>
            var d := DefaultOwner(s0).value;
            && (forall x :: x in o.db.owners <==> x in s0.owners && x.id != ownerId)
            && d in o.db.owners
            && |o.db.topics| == |s0.topics|
            && (forall i :: 0 <= i < |s0.topics| ==>
                  o.db.topics[i] ==
                    (if s0.topics[i].ownerId == Some(ownerId) then s0.topics[i].(ownerId := Some(d.id)) else s0.topics[i]))
            && (forall t :: t in o.db.topics ==> t.ownerId != Some(ownerId))
            && o.db.materials == s0.materials)
  {
    var s0 := WithSchema(s);
    WithSchemaSpec(s);
    WithSchemaIdempotent(s);
    var o := DeleteOwner(s, ownerId);
    if o.result.Ok? {
      var d := DefaultOwner(s0).value;
      forall t | t in o.db.topics
        ensures t.ownerId != Some(ownerId)
      {
        var i :| 0 <= i < |o.db.topics| && o.db.topics[i] == t;
      }
    }
  }

  /** Removing an owner no topic refers to keeps the tables well formed. */
  lemma OwnerRemoved(s: DbState, ownerId: int)
    requires WellFormed(s)
    requires forall t :: t in s.topics ==> t.ownerId != Some(ownerId)
    ensures WellFormed(s.(owners := Filter(s.owners, (o: Owner) => o.id != ownerId)))
  {
    var keep := (x: Owner) => x.id != ownerId;
    var owners := Filter(s.owners, keep);
    var before := (a: Owner, b: Owner) => a.id < b.id && a.slug != b.slug;
    forall i, j | 0 <= i < j < |s.owners|
      ensures before(s.owners[i], s.owners[j])
    {
      assert OwnerIds(s.owners)[i] < OwnerIds(s.owners)[j];
    }
    FilterPairwise(s.owners, keep, before);
    assert forall i, j :: 0 <= i < j < |owners| ==> before(owners[i], owners[j]);
    forall i | 0 <= i < |owners|
      ensures 1 <= owners[i].id < s.nextOwnerId
    {
      assert owners[i] in s.owners;
      var k :| 0 <= k < |s.owners| && s.owners[k] == owners[i];
      assert OwnerIds(s.owners)[k] == owners[i].id;
    }
    forall t | t in s.topics && t.ownerId.Some?
      ensures HasOwner(owners, t.ownerId.value)
    {
      var x :| x in s.owners && x.id == t.ownerId.value;
      assert x in owners;
    }
  }

  lemma DeleteOwnerWellFormed(s: DbState, ownerId: int)
    requires WellFormed(s)
    ensures WellFormed(DeleteOwner(s, ownerId).db)
  {
    var s0 := WithSchema(s);
    WithSchemaWellFormed(s);
    WithSchemaIdempotent(s);
    DeleteOwnerSpec(s, ownerId);
    var o := DeleteOwner(s, ownerId);
    if o.result.Ok? {
      var d := DefaultOwner(s0).value;
      forall i | 0 <= i < |o.db.topics| && o.db.topics[i].ownerId.Some?
        ensures HasOwner(s0.owners, o.db.topics[i].ownerId.value)
      {
        assert s0.topics[i] in s0.topics;
        assert d in s0.owners;
      }
      TopicsRewritten(s0, o.db.topics);
      OwnerRemoved(s0.(topics := o.db.topics), ownerId);
    }
  }
}
