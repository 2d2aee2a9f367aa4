/**
The graph beside the memory store: which memory mentions which entity, both ways round, and which
memories are related by the entities they share.  Each query is the set operation its text denotes,
on nodes that are unique by id or key.
 */
module GraphIndex {
  import opened Wrappers

  type Id = nat

  // The four scope fields; 0 stands for the empty string.
  datatype Memory = Memory(project: nat, user: nat, agent: nat, app: nat, run: nat)

  datatype Kind = ScopeKind | MemoryKind

  /** An entity node is unique by project, kind and normalized name. */
  datatype Entity = Entity(project: nat, kind: Kind, norm: nat)

  datatype Category = Category(project: nat, name: nat)

  datatype Mentioned = Mentioned(kind: Kind, norm: nat)

  /** One prepared row of an upsert. */
  datatype Row = Row(id: Id, memory: Memory, entities: set<Mentioned>, categories: set<nat>)

  /** `related` maps a directed edge to the names it lists; its weight is their number. */
  datatype Graph = Graph(
    memories: map<Id, Memory>,
    entities: set<Entity>,
    categories: set<Category>,
    mentions: set<(Id, Entity)>,
    hasMemory: set<(Entity, Id)>,
    inCategory: set<(Id, Category)>,
    related: map<(Id, Id), set<nat>>)

  const EMPTY := Graph(map[], {}, {}, {}, {}, {}, map[])

  /****** what the edges should be ******/

  predicate ScopeMatch(a: Memory, b: Memory) {
    || (a.user != 0 && a.user == b.user) || (a.agent != 0 && a.agent == b.agent)
    || (a.app != 0 && a.app == b.app) || (a.run != 0 && a.run == b.run)
    || (a.user == 0 && a.agent == 0 && a.app == 0 && a.run == 0 && b.user == 0 && b.agent == 0 && b.app == 0 && b.run == 0)
  }

  // The names of the memory-kind entities both memories mention
  function SharedNorms(g: Graph, a: Id, b: Id): set<nat> {
    set p | p in g.mentions && p.0 == a && (b, p.1) in g.mentions && p.1.kind.MemoryKind? :: p.1.norm
  }

  predicate Linked(g: Graph, a: Id, b: Id) {
    && a in g.memories && b in g.memories && a != b
    && g.memories[a].project == g.memories[b].project && ScopeMatch(g.memories[a], g.memories[b])
    && SharedNorms(g, a, b) != {}
  }

  ghost predicate Converse(g: Graph) {
    forall i, e :: (i, e) in g.mentions <==> (e, i) in g.hasMemory
  }

  // Edges join existing nodes of one project.
  ghost predicate Anchored(g: Graph) {
    && (forall p :: p in g.mentions ==> p.0 in g.memories && p.1 in g.entities && p.1.project == g.memories[p.0].project)
    && (forall p :: p in g.inCategory ==> p.0 in g.memories && p.1 in g.categories && p.1.project == g.memories[p.0].project)
  }

  ghost predicate RelatedRight(g: Graph) {
    && (forall a: Id, b: Id :: (a, b) in g.related <==> Linked(g, a, b))
    && (forall a: Id, b: Id :: (a, b) in g.related ==> g.related[(a, b)] == SharedNorms(g, a, b))
  }

  /** The incrementally kept edges are exactly the declared ones. */
  ghost predicate Agrees(g: Graph) {
    Converse(g) && Anchored(g) && RelatedRight(g)
  }

  /****** the queries of an upsert ******/

  function Ids(rows: seq<Row>): set<Id> {
    set r | r in rows :: r.id
  }

  function PutAll(memories: map<Id, Memory>, rows: seq<Row>): map<Id, Memory>
    decreases |rows|
  {
    if rows == [] then memories else PutAll(memories[rows[0].id := rows[0].memory], rows[1..])
  }

  // The first query: write the memory nodes, then delete their old edges.
  function Store(g: Graph, rows: seq<Row>): Graph {
    var ids := Ids(rows);
    g.(memories := PutAll(g.memories, rows),
       mentions := (set p | p in g.mentions && p.0 !in ids),
       inCategory := (set p | p in g.inCategory && p.0 !in ids),
       hasMemory := (set p | p in g.hasMemory && p.1 !in ids),
       related := (map p | p in g.related && p.0 !in ids && p.1 !in ids :: g.related[p]))
  }

  function EntitiesOf(r: Row): set<Entity> {
    set m | m in r.entities :: Entity(r.memory.project, m.kind, m.norm)
  }

  // The second query for one row
  function Mention(g: Graph, r: Row): Graph {
    var es := EntitiesOf(r);
    g.(entities := g.entities + es,
       mentions := g.mentions + (set e | e in es :: (r.id, e)),
       hasMemory := g.hasMemory + (set e | e in es :: (e, r.id)))
  }

  function MentionAll(g: Graph, rows: seq<Row>): Graph
    decreases |rows|
  {
    if rows == [] then g else MentionAll(Mention(g, rows[0]), rows[1..])
  }

  function CategoriesOf(r: Row): set<Category> {
    set n | n in r.categories :: Category(r.memory.project, n)
  }

  // The third query for one row
  function Categorize(g: Graph, r: Row): Graph {
    var cs := CategoriesOf(r);
    g.(categories := g.categories + cs, inCategory := g.inCategory + (set c | c in cs :: (r.id, c)))
  }

  function CategorizeAll(g: Graph, rows: seq<Row>): Graph
    decreases |rows|
  {
    if rows == [] then g else CategorizeAll(Categorize(g, rows[0]), rows[1..])
  }

  // The names the fourth query collects: out along MENTIONS, back along HAS_MEMORY
  function FoundNorms(g: Graph, m: Id, other: Id): set<nat> {
    set p | p in g.mentions && p.0 == m && (p.1, other) in g.hasMemory && p.1.kind.MemoryKind? :: p.1.norm
  }

  // The memories the fourth query finds for one row
  function Others(g: Graph, r: Row): set<Id> {
    set o | o in g.memories && r.id in g.memories && o != r.id
            && g.memories[r.id].project == r.memory.project == g.memories[o].project
            && ScopeMatch(g.memories[r.id], g.memories[o]) && FoundNorms(g, r.id, o) != {}
  }

  function There(g: Graph, r: Row): map<(Id, Id), set<nat>> {
    map o | o in Others(g, r) :: (r.id, o) := FoundNorms(g, r.id, o)
  }

  function Back(g: Graph, r: Row): map<(Id, Id), set<nat>> {
    map o | o in Others(g, r) :: (o, r.id) := FoundNorms(g, r.id, o)
  }

  // The fourth query for one row: both directions of every edge found
  function Relate(g: Graph, r: Row): Graph {
    g.(related := g.related + There(g, r) + Back(g, r))
  }

  function RelateAll(g: Graph, rows: seq<Row>): Graph
    decreases |rows|
  {
    if rows == [] then g else RelateAll(Relate(g, rows[0]), rows[1..])
  }

  /** `_write_memory_batch`; `upsert_memory` is the batch of one row. */
  function Upsert(g: Graph, rows: seq<Row>): Graph {
    RelateAll(CategorizeAll(MentionAll(Store(g, rows), rows), rows), rows)
  }

  /****** deletion ******/

  function Detach(g: Graph, gone: set<Id>): Graph {
    g.(memories := g.memories - gone,
       mentions := (set p | p in g.mentions && p.0 !in gone),
       hasMemory := (set p | p in g.hasMemory && p.1 !in gone),
       inCategory := (set p | p in g.inCategory && p.0 !in gone),
       related := (map p | p in g.related && p.0 !in gone && p.1 !in gone :: g.related[p]))
  }

  predicate Orphan(g: Graph, e: Entity, project: nat) {
    e.project == project && !exists p :: p in g.hasMemory && p.0 == e && p.1 in g.memories && g.memories[p.1].project == project
  }

  predicate Unused(g: Graph, c: Category, project: nat) {
    c.project == project && !exists p :: p in g.inCategory && p.1 == c && p.0 in g.memories && g.memories[p.0].project == project
  }

  // `_prune_orphans`: entities and categories of the project without a memory, with all their edges
  function Prune(g: Graph, project: nat): Graph {
    g.(entities := (set e | e in g.entities && !Orphan(g, e, project)),
       mentions := (set p | p in g.mentions && !Orphan(g, p.1, project)),
       hasMemory := (set p | p in g.hasMemory && !Orphan(g, p.0, project)),
       categories := (set c | c in g.categories && !Unused(g, c, project)),
       inCategory := (set p | p in g.inCategory && !Unused(g, p.1, project)))
  }

  // An id that is not there prunes the default project.
  function Delete(g: Graph, id: Id, fallback: nat): Graph {
    Prune(Detach(g, {id}), if id in g.memories then g.memories[id].project else fallback)
  }

  datatype Filter = Filter(user: Option<nat>, agent: Option<nat>, app: Option<nat>, run: Option<nat>)

  predicate Selects(f: Filter, project: nat, m: Memory) {
    && m.project == project
    && (f.user.Some? ==> m.user == f.user.value) && (f.agent.Some? ==> m.agent == f.agent.value)
    && (f.app.Some? ==> m.app == f.app.value) && (f.run.Some? ==> m.run == f.run.value)
  }

  function DeleteMany(g: Graph, project: nat, f: Filter): Graph {
    Prune(Detach(g, set i | i in g.memories && Selects(f, project, g.memories[i])), project)
  }

  /****** every operation keeps the agreement ******/

  predicate DistinctRows(rows: seq<Row>) {
    forall i, j :: 0 <= i < j < |rows| ==> rows[i].id != rows[j].id
  }

  // Graphs that agree are the same when everything but the derived edges is.
  lemma Determined(g: Graph, h: Graph)
    requires Agrees(g) && Agrees(h)
    requires g.memories == h.memories && g.entities == h.entities && g.categories == h.categories
    requires g.mentions == h.mentions && g.inCategory == h.inCategory
    ensures g == h
  {
    forall p ensures p in g.hasMemory <==> p in h.hasMemory {
      assert p == (p.0, p.1);
    }
    assert g.hasMemory == h.hasMemory;
    forall p ensures p in g.related <==> p in h.related {
      assert p == (p.0, p.1) && SharedNorms(g, p.0, p.1) == SharedNorms(h, p.0, p.1);
    }
    forall p | p in g.related ensures g.related[p] == h.related[p] {
      assert p == (p.0, p.1) && SharedNorms(g, p.0, p.1) == SharedNorms(h, p.0, p.1);
    }
    assert g.related == h.related;
  }

  lemma SharedSymmetric(g: Graph, a: Id, b: Id)
    ensures SharedNorms(g, a, b) == SharedNorms(g, b, a)
  {
    forall n | n in SharedNorms(g, a, b) ensures n in SharedNorms(g, b, a) {
      var p :| p in g.mentions && p.0 == a && (b, p.1) in g.mentions && p.1.kind.MemoryKind? && p.1.norm == n;
      assert (a, p.1) == p;
    }
    forall n | n in SharedNorms(g, b, a) ensures n in SharedNorms(g, a, b) {
      var p :| p in g.mentions && p.0 == b && (a, p.1) in g.mentions && p.1.kind.MemoryKind? && p.1.norm == n;
      assert (b, p.1) == p;
    }
  }

  // Only the mentions of the two memories matter.
  lemma SharedSame(g: Graph, h: Graph, a: Id, b: Id)
    requires forall e :: (a, e) in g.mentions <==> (a, e) in h.mentions
    requires forall e :: (b, e) in g.mentions <==> (b, e) in h.mentions
    ensures SharedNorms(g, a, b) == SharedNorms(h, a, b)
  {
    SharedWithin(g, h, a, b);
    SharedWithin(h, g, a, b);
  }

  lemma SharedWithin(g: Graph, h: Graph, a: Id, b: Id)
    requires forall e :: (a, e) in g.mentions ==> (a, e) in h.mentions
    requires forall e :: (b, e) in g.mentions ==> (b, e) in h.mentions
    ensures SharedNorms(g, a, b) <= SharedNorms(h, a, b)
  {
    forall n | n in SharedNorms(g, a, b) ensures n in SharedNorms(h, a, b) {
      var p :| p in g.mentions && p.0 == a && (b, p.1) in g.mentions && p.1.kind.MemoryKind? && p.1.norm == n;
      assert p == (a, p.1) && p in h.mentions;
    }
  }

  lemma {:induction false} PutAllIs(memories: map<Id, Memory>, rows: seq<Row>)
    requires DistinctRows(rows)
    ensures var after := PutAll(memories, rows);
            && (forall i :: i in after <==> i in memories || i in Ids(rows))
            && (forall i :: i in memories && i !in Ids(rows) ==> after[i] == memories[i])
            && (forall r :: r in rows ==> r.id in after && after[r.id] == r.memory)
    decreases |rows|
  {
    if rows != [] {
      assert rows == [rows[0]] + rows[1..];
      forall r | r in rows[1..] ensures r.id != rows[0].id {
        var i :| 0 <= i < |rows[1..]| && rows[1..][i] == r;
        assert rows[i + 1] == r;
      }
      PutAllIs(memories[rows[0].id := rows[0].memory], rows[1..]);
    }
  }

  /** Writing the nodes and deleting their old edges leaves an agreeing graph. */
  lemma StoreAgrees(g: Graph, rows: seq<Row>)
    requires Agrees(g) && DistinctRows(rows)
    ensures Agrees(Store(g, rows))
  {
    var h := Store(g, rows);
    PutAllIs(g.memories, rows);
    forall a: Id, b: Id ensures (a, b) in h.related <==> Linked(h, a, b) {
      if a in Ids(rows) || b in Ids(rows) {
        Unmentioned(h, a, b, Ids(rows));
      } else {
        SharedSame(g, h, a, b);
      }
    }
    forall a: Id, b: Id | (a, b) in h.related ensures h.related[(a, b)] == SharedNorms(h, a, b) {
      SharedSame(g, h, a, b);
    }
  }

  lemma Unmentioned(h: Graph, a: Id, b: Id, ids: set<Id>)
    requires (forall p :: p in h.mentions ==> p.0 !in ids) && (a in ids || b in ids)
    ensures SharedNorms(h, a, b) == {}
  {
  }

  // The edge from `a` to `b` is right: it is there when it should be, at least if it was touched or never dropped.
  ghost predicate EdgeRight(g: Graph, ids: set<Id>, done: set<Id>, a: Id, b: Id) {
    && ((a, b) in g.related <==> Linked(g, a, b) && ((a !in ids && b !in ids) || a in done || b in done))
    && ((a, b) in g.related ==> g.related[(a, b)] == SharedNorms(g, a, b))
  }

  // The edges between memories outside `ids`, and those of the rows in `done`, are right; no others are there.
  ghost predicate RelatedFor(g: Graph, ids: set<Id>, done: set<Id>) {
    forall a: Id, b: Id :: EdgeRight(g, ids, done, a, b)
  }

  lemma MentionKeeps(g: Graph, r: Row, ids: set<Id>)
    requires Converse(g) && Anchored(g) && RelatedFor(g, ids, {}) && r.id in ids
    requires r.id in g.memories && g.memories[r.id] == r.memory
    ensures var h := Mention(g, r); Converse(h) && Anchored(h) && RelatedFor(h, ids, {})
  {
    var h := Mention(g, r);
    forall a: Id, b: Id ensures EdgeRight(h, ids, {}, a, b) {
      assert EdgeRight(g, ids, {}, a, b);
      if a !in ids && b !in ids {
        SharedSame(g, h, a, b);
      }
    }
  }

  lemma {:induction false} MentionAllKeeps(g: Graph, rows: seq<Row>, ids: set<Id>)
    requires Converse(g) && Anchored(g) && RelatedFor(g, ids, {})
    requires forall r :: r in rows ==> r.id in ids && r.id in g.memories && g.memories[r.id] == r.memory
    ensures var h := MentionAll(g, rows);
            Converse(h) && Anchored(h) && RelatedFor(h, ids, {}) && h.memories == g.memories
    decreases |rows|
  {
    if rows != [] {
      assert rows[0] in rows && forall r :: r in rows[1..] ==> r in rows;
      MentionKeeps(g, rows[0], ids);
      hide Converse, Anchored, RelatedFor;
      MentionAllKeeps(Mention(g, rows[0]), rows[1..], ids);
    }
  }

  lemma CategorizeKeeps(g: Graph, r: Row, ids: set<Id>)
    requires Converse(g) && Anchored(g) && RelatedFor(g, ids, {})
    requires r.id in g.memories && g.memories[r.id] == r.memory
    ensures var h := Categorize(g, r); Converse(h) && Anchored(h) && RelatedFor(h, ids, {})
  {
    var h := Categorize(g, r);
    forall a: Id, b: Id ensures EdgeRight(h, ids, {}, a, b) {
      assert EdgeRight(g, ids, {}, a, b);
      SharedSame(g, h, a, b);
    }
  }

  lemma {:induction false} CategorizeAllKeeps(g: Graph, rows: seq<Row>, ids: set<Id>)
    requires Converse(g) && Anchored(g) && RelatedFor(g, ids, {})
    requires forall r :: r in rows ==> r.id in g.memories && g.memories[r.id] == r.memory
    ensures var h := CategorizeAll(g, rows);
            Converse(h) && Anchored(h) && RelatedFor(h, ids, {}) && h.memories == g.memories
    decreases |rows|
  {
    if rows != [] {
      assert rows[0] in rows && forall r :: r in rows[1..] ==> r in rows;
      CategorizeKeeps(g, rows[0], ids);
      hide Converse, Anchored, RelatedFor;
      CategorizeAllKeeps(Categorize(g, rows[0]), rows[1..], ids);
    }
  }

  lemma FoundIsShared(g: Graph, a: Id, b: Id)
    requires Converse(g)
    ensures FoundNorms(g, a, b) == SharedNorms(g, a, b)
  {
  }

  // The query finds exactly the memories the row's memory should be linked to.
  lemma OthersAreLinked(g: Graph, r: Row)
    requires Converse(g) && r.id in g.memories && g.memories[r.id] == r.memory
    ensures forall o: Id :: o in Others(g, r) <==> Linked(g, r.id, o)
    ensures forall o: Id :: o in Others(g, r) <==> Linked(g, o, r.id)
  {
    forall o: Id ensures (o in Others(g, r) <==> Linked(g, r.id, o)) && (Linked(g, r.id, o) <==> Linked(g, o, r.id)) {
      FoundIsShared(g, r.id, o);
      SharedSymmetric(g, r.id, o);
    }
  }

  lemma ThereAndBack(g: Graph, r: Row)
    ensures forall a: Id, b: Id :: (a, b) in There(g, r) <==> a == r.id && b in Others(g, r)
    ensures forall a: Id, b: Id :: (a, b) in There(g, r) ==> There(g, r)[(a, b)] == FoundNorms(g, a, b)
    ensures forall a: Id, b: Id :: (a, b) in Back(g, r) <==> b == r.id && a in Others(g, r)
    ensures forall a: Id, b: Id :: (a, b) in Back(g, r) ==> Back(g, r)[(a, b)] == FoundNorms(g, b, a)
  {
    hide Others, FoundNorms;
  }

  // Relating one row, edge by edge
  lemma RelateEdge(g: Graph, r: Row, a: Id, b: Id)
    requires Converse(g) && r.id in g.memories && g.memories[r.id] == r.memory
    ensures var h, touched := Relate(g, r), (a == r.id || b == r.id) && Linked(g, a, b);
            && ((a, b) in h.related <==> (a, b) in g.related || touched)
            && ((a, b) in h.related ==> h.related[(a, b)] == if touched then SharedNorms(g, a, b) else g.related[(a, b)])
  {
    ThereAndBack(g, r);
    OthersAreLinked(g, r);
    FoundIsShared(g, a, b);
    FoundIsShared(g, b, a);
    SharedSymmetric(g, a, b);
    assert Linked(g, a, b) ==> a != b;
    hide Linked, Others, FoundNorms, SharedNorms, There, Back, Converse;
  }

  lemma LinkedSame(g: Graph, h: Graph)
    requires g.memories == h.memories && g.mentions == h.mentions
    ensures forall a: Id, b: Id :: SharedNorms(h, a, b) == SharedNorms(g, a, b) && Linked(h, a, b) == Linked(g, a, b)
  {
  }

  // One edge after relating one row
  lemma RelateOne(g: Graph, r: Row, ids: set<Id>, done: set<Id>, a: Id, b: Id)
    requires Converse(g) && EdgeRight(g, ids, done, a, b)
    requires r.id in ids && r.id in g.memories && g.memories[r.id] == r.memory
    ensures EdgeRight(Relate(g, r), ids, done + {r.id}, a, b)
  {
    RelateEdge(g, r, a, b);
    LinkedSame(g, Relate(g, r));
    hide SharedNorms, Linked, Relate;
  }

  lemma RelateKeeps(g: Graph, r: Row, ids: set<Id>, done: set<Id>)
    requires Converse(g) && Anchored(g) && RelatedFor(g, ids, done) && r.id in ids
    requires r.id in g.memories && g.memories[r.id] == r.memory
    ensures var h := Relate(g, r); Converse(h) && Anchored(h) && RelatedFor(h, ids, done + {r.id})
  {
    hide EdgeRight;
    forall a: Id, b: Id ensures EdgeRight(Relate(g, r), ids, done + {r.id}, a, b) {
      assert EdgeRight(g, ids, done, a, b);
      RelateOne(g, r, ids, done, a, b);
    }
  }

  lemma {:induction false} RelateAllKeeps(g: Graph, rows: seq<Row>, ids: set<Id>, done: set<Id>)
    requires Converse(g) && Anchored(g) && RelatedFor(g, ids, done)
    requires forall r :: r in rows ==> r.id in ids && r.id in g.memories && g.memories[r.id] == r.memory
    ensures var h := RelateAll(g, rows); Converse(h) && Anchored(h) && RelatedFor(h, ids, done + Ids(rows))
    decreases |rows|
  {
    if rows != [] {
      assert rows[0] in rows && forall r :: r in rows[1..] ==> r in rows;
      assert Ids(rows) == {rows[0].id} + Ids(rows[1..]) by {
        assert rows == [rows[0]] + rows[1..];
      }
      RelateKeeps(g, rows[0], ids, done);
      assert done + {rows[0].id} + Ids(rows[1..]) == done + Ids(rows);
      hide Converse, Anchored, RelatedFor, Others, FoundNorms, Ids;
      RelateAllKeeps(Relate(g, rows[0]), rows[1..], ids, done + {rows[0].id});
    } else {
      assert done + Ids(rows) == done;
    }
  }

  /** An upsert of distinct memories, one or many, keeps the edges exactly as declared. */
  lemma UpsertAgrees(g: Graph, rows: seq<Row>)
    requires Agrees(g) && DistinctRows(rows)
    ensures Agrees(Upsert(g, rows))
  {
    var ids := Ids(rows);
    var h := Store(g, rows);
    StoreAgrees(g, rows);
    PutAllIs(g.memories, rows);
    assert RelatedFor(h, ids, {}) by {
      forall a: Id, b: Id | a in ids || b in ids ensures !Linked(h, a, b) {
        Unmentioned(h, a, b, ids);
      }
    }
    assert forall r :: r in rows ==> r.id in ids;
    hide Store, Mention, Categorize, Relate, PutAll, Converse, Anchored, RelatedFor;
    MentionAllKeeps(h, rows, ids);
    CategorizeAllKeeps(MentionAll(h, rows), rows, ids);
    RelateAllKeeps(CategorizeAll(MentionAll(h, rows), rows), rows, ids, {});
    AllRelated(Upsert(g, rows), ids);
  }

  lemma AllRelated(g: Graph, ids: set<Id>)
    requires RelatedFor(g, ids, {} + ids)
    ensures RelatedRight(g)
  {
    forall a: Id, b: Id ensures (a, b) in g.related <==> Linked(g, a, b) {
      assert EdgeRight(g, ids, {} + ids, a, b);
    }
    forall a: Id, b: Id | (a, b) in g.related ensures g.related[(a, b)] == SharedNorms(g, a, b) {
      assert EdgeRight(g, ids, {} + ids, a, b);
    }
  }

  /****** deletions ******/

  lemma DetachAgrees(g: Graph, gone: set<Id>)
    requires Agrees(g)
    ensures Agrees(Detach(g, gone))
  {
    var h := Detach(g, gone);
    forall a: Id, b: Id ensures (a, b) in h.related <==> Linked(h, a, b) {
      if a !in gone && b !in gone {
        SharedSame(g, h, a, b);
      }
    }
    forall a: Id, b: Id | (a, b) in h.related ensures h.related[(a, b)] == SharedNorms(h, a, b) {
      SharedSame(g, h, a, b);
    }
  }

  /** Pruning an agreeing graph removes nodes only: no edge ever ends at an orphan. */
  lemma PruneKeepsEdges(g: Graph, project: nat)
    requires Agrees(g)
    ensures var h := Prune(g, project);
            && h.mentions == g.mentions && h.hasMemory == g.hasMemory && h.inCategory == g.inCategory
            && h.related == g.related && h.memories == g.memories
            && Agrees(h)
  {
    var h := Prune(g, project);
    forall p | p in g.mentions ensures !Orphan(g, p.1, project) {
      assert p == (p.0, p.1) && (p.1, p.0) in g.hasMemory;
    }
    assert h.mentions == g.mentions;
    forall p | p in g.hasMemory ensures !Orphan(g, p.0, project) {
      assert p == (p.0, p.1) && (p.1, p.0) in g.mentions;
    }
    assert h.hasMemory == g.hasMemory;
    forall p | p in g.inCategory ensures !Unused(g, p.1, project) {
    }
    assert h.inCategory == g.inCategory;
    LinkedSame(g, h);
  }

  /** After pruning every remaining entity of the project is mentioned. */
  lemma PruneIsTight(g: Graph, project: nat, e: Entity)
    requires Agrees(g) && e.project == project
    ensures e in Prune(g, project).entities <==> exists p :: p in g.mentions && p.1 == e
  {
    if p :| p in g.mentions && p.1 == e {
      assert p == (p.0, e) && (e, p.0) in g.hasMemory && (e, p.0).1 in g.memories;
    }
    if p :| p in g.hasMemory && p.0 == e && p.1 in g.memories && g.memories[p.1].project == project {
      assert p == (e, p.1) && (p.1, e) in g.mentions;
    }
  }

  datatype Op = Insert(rows: seq<Row>) | Remove(id: Id, fallback: nat) | RemoveMany(project: nat, filter: Filter)

  function Apply(g: Graph, op: Op): Graph {
    match op
    case Insert(rows) => Upsert(g, rows)
    case Remove(id, fallback) => Delete(g, id, fallback)
    case RemoveMany(project, filter) => DeleteMany(g, project, filter)
  }

  function ApplyAll(g: Graph, ops: seq<Op>): Graph
    decreases |ops|
  {
    if ops == [] then g else ApplyAll(Apply(g, ops[0]), ops[1..])
  }

  /**
  Graph agreement: after any sequence of upserts, batch upserts of distinct memories and deletions,
  MENTIONS is the converse of HAS_MEMORY, and RELATED_TO with its weight is exactly the declared
  relation: distinct memories of one project with matching scope, weighed by the memory-kind
  entities they share.
   */
  lemma {:induction false} AlwaysAgrees(g: Graph, ops: seq<Op>)
    requires Agrees(g) && forall i :: 0 <= i < |ops| && ops[i].Insert? ==> DistinctRows(ops[i].rows)
    ensures Agrees(ApplyAll(g, ops))
    decreases |ops|
  {
    if ops != [] {
      match ops[0] {
        case Insert(rows) => UpsertAgrees(g, rows);
        case Remove(id, fallback) =>
          DetachAgrees(g, {id});
          PruneKeepsEdges(Detach(g, {id}), if id in g.memories then g.memories[id].project else fallback);
        case RemoveMany(project, filter) =>
          var gone := set i | i in g.memories && Selects(filter, project, g.memories[i]);
          DetachAgrees(g, gone);
          PruneKeepsEdges(Detach(g, gone), project);
      }
      AlwaysAgrees(Apply(g, ops[0]), ops[1..]);
    }
  }

  /****** a batch is its rows one by one, in any order ******/

  // What an upsert makes of one place of the graph: the node of `i`, or whether an edge or node is there
  ghost predicate MemoryRight(g: Graph, h: Graph, rows: seq<Row>, i: Id) {
    && (i in h.memories <==> i in g.memories || i in Ids(rows))
    && (i in g.memories && i !in Ids(rows) ==> h.memories[i] == g.memories[i])
    && (forall r :: r in rows && r.id == i ==> i in h.memories && h.memories[i] == r.memory)
  }

  ghost predicate Mentions(rows: seq<Row>, i: Id, e: Entity) {
    exists r :: r in rows && r.id == i && e in EntitiesOf(r)
  }

  ghost predicate Files(rows: seq<Row>, i: Id, c: Category) {
    exists r :: r in rows && r.id == i && c in CategoriesOf(r)
  }

  ghost predicate Names(rows: seq<Row>, e: Entity) {
    exists r :: r in rows && e in EntitiesOf(r)
  }

  ghost predicate Lists(rows: seq<Row>, c: Category) {
    exists r :: r in rows && c in CategoriesOf(r)
  }

  /** Everything but the derived edges after an upsert, place by place and without the order of rows. */
  ghost predicate BaseIs(g: Graph, h: Graph, rows: seq<Row>) {
    && (forall i: Id :: MemoryRight(g, h, rows, i))
    && (forall i: Id, e: Entity :: (i, e) in h.mentions <==> ((i, e) in g.mentions && i !in Ids(rows)) || Mentions(rows, i, e))
    && (forall i: Id, c: Category :: (i, c) in h.inCategory <==> ((i, c) in g.inCategory && i !in Ids(rows)) || Files(rows, i, c))
    && (forall e: Entity :: e in h.entities <==> e in g.entities || Names(rows, e))
    && (forall c: Category :: c in h.categories <==> c in g.categories || Lists(rows, c))
  }

  // Adding a row at the front adds what it says.
  lemma RowsStep(rows: seq<Row>)
    requires rows != []
    ensures Ids(rows) == {rows[0].id} + Ids(rows[1..])
    ensures forall i: Id, e: Entity :: Mentions(rows, i, e) <==> (rows[0].id == i && e in EntitiesOf(rows[0])) || Mentions(rows[1..], i, e)
    ensures forall i: Id, c: Category :: Files(rows, i, c) <==> (rows[0].id == i && c in CategoriesOf(rows[0])) || Files(rows[1..], i, c)
    ensures forall e: Entity :: Names(rows, e) <==> e in EntitiesOf(rows[0]) || Names(rows[1..], e)
    ensures forall c: Category :: Lists(rows, c) <==> c in CategoriesOf(rows[0]) || Lists(rows[1..], c)
  {
    assert rows == [rows[0]] + rows[1..];
    assert forall r :: r in rows <==> r == rows[0] || r in rows[1..];
  }

  lemma {:induction false} MentionAllIs(g: Graph, rows: seq<Row>)
    ensures var h := MentionAll(g, rows);
            && (forall i: Id, e: Entity :: (i, e) in h.mentions <==> (i, e) in g.mentions || Mentions(rows, i, e))
            && (forall e: Entity :: e in h.entities <==> e in g.entities || Names(rows, e))
            && h == g.(mentions := h.mentions, entities := h.entities, hasMemory := h.hasMemory)
    decreases |rows|
  {
    if rows != [] {
      RowsStep(rows);
      MentionAllIs(Mention(g, rows[0]), rows[1..]);
      hide Mentions, Names, EntitiesOf;
    }
  }

  lemma {:induction false} CategorizeAllIs(g: Graph, rows: seq<Row>)
    ensures var h := CategorizeAll(g, rows);
            && (forall i: Id, c: Category :: (i, c) in h.inCategory <==> (i, c) in g.inCategory || Files(rows, i, c))
            && (forall c: Category :: c in h.categories <==> c in g.categories || Lists(rows, c))
            && h == g.(inCategory := h.inCategory, categories := h.categories)
    decreases |rows|
  {
    if rows != [] {
      RowsStep(rows);
      CategorizeAllIs(Categorize(g, rows[0]), rows[1..]);
      hide Files, Lists, CategoriesOf;
    }
  }

  lemma {:induction false} RelateAllIs(g: Graph, rows: seq<Row>)
    ensures RelateAll(g, rows) == g.(related := RelateAll(g, rows).related)
    decreases |rows|
  {
    if rows != [] {
      RelateAllIs(Relate(g, rows[0]), rows[1..]);
    }
  }

  lemma UpsertBase(g: Graph, rows: seq<Row>)
    requires DistinctRows(rows)
    ensures BaseIs(g, Upsert(g, rows), rows)
  {
    var h := Store(g, rows);
    PutAllIs(g.memories, rows);
    assert forall r :: r in rows ==> r.id in Ids(rows);
    assert forall i: Id :: MemoryRight(g, h, rows, i);
    assert h == g.(memories := h.memories, mentions := h.mentions, inCategory := h.inCategory, hasMemory := h.hasMemory, related := h.related);
    assert forall i: Id, e: Entity :: (i, e) in h.mentions <==> (i, e) in g.mentions && i !in Ids(rows);
    assert forall i: Id, c: Category :: (i, c) in h.inCategory <==> (i, c) in g.inCategory && i !in Ids(rows);
    hide Mentions, Files, Names, Lists, MemoryRight, Ids, PutAll, Store, Relate, Mention, Categorize;
    MentionAllIs(h, rows);
    CategorizeAllIs(MentionAll(h, rows), rows);
    RelateAllIs(CategorizeAll(MentionAll(h, rows), rows), rows);
  }

  /** One row after another */
  function Fold(g: Graph, rows: seq<Row>): Graph
    decreases |rows|
  {
    if rows == [] then g else Fold(Upsert(g, [rows[0]]), rows[1..])
  }

  lemma DistinctTail(rows: seq<Row>)
    requires rows != [] && DistinctRows(rows)
    ensures DistinctRows(rows[1..]) && DistinctRows([rows[0]]) && rows[0].id !in Ids(rows[1..])
  {
    forall r | r in rows[1..] ensures r.id != rows[0].id {
      var i :| 0 <= i < |rows[1..]| && rows[1..][i] == r;
      assert rows[i + 1] == r;
    }
  }

  lemma BaseStep(g: Graph, g1: Graph, h: Graph, rows: seq<Row>)
    requires rows != [] && DistinctRows(rows) && BaseIs(g, g1, [rows[0]]) && BaseIs(g1, h, rows[1..])
    ensures BaseIs(g, h, rows)
  {
    DistinctTail(rows);
    RowsStep(rows);
    RowsStep([rows[0]]);
    assert [rows[0]][1..] == [];
    assert forall r :: r in rows ==> r == rows[0] || (r in rows[1..] && r.id in Ids(rows[1..]));
    forall i: Id ensures MemoryRight(g, h, rows, i) {
      assert MemoryRight(g, g1, [rows[0]], i) && MemoryRight(g1, h, rows[1..], i);
      assert rows[0] in [rows[0]];
    }
    hide Mentions, Files, Names, Lists, MemoryRight, EntitiesOf, CategoriesOf, DistinctRows;
  }

  lemma {:induction false} FoldBase(g: Graph, rows: seq<Row>)
    requires Agrees(g) && DistinctRows(rows)
    ensures BaseIs(g, Fold(g, rows), rows) && Agrees(Fold(g, rows))
    decreases |rows|
  {
    if rows != [] {
      DistinctTail(rows);
      UpsertBase(g, [rows[0]]);
      UpsertAgrees(g, [rows[0]]);
      FoldBase(Upsert(g, [rows[0]]), rows[1..]);
      BaseStep(g, Upsert(g, [rows[0]]), Fold(g, rows), rows);
    }
  }

  // Two upserts with the same rows leave the same nodes and mentions.
  lemma BaseUnique(g: Graph, h: Graph, k: Graph, rows: seq<Row>, others: seq<Row>)
    requires BaseIs(g, h, rows) && BaseIs(g, k, others) && forall r :: r in rows <==> r in others
    ensures h.memories == k.memories && h.entities == k.entities && h.categories == k.categories
    ensures h.mentions == k.mentions && h.inCategory == k.inCategory
  {
    assert Ids(rows) == Ids(others);
    assert forall i: Id, e: Entity :: Mentions(rows, i, e) <==> Mentions(others, i, e);
    assert forall i: Id, c: Category :: Files(rows, i, c) <==> Files(others, i, c);
    assert forall e: Entity :: Names(rows, e) <==> Names(others, e);
    assert forall c: Category :: Lists(rows, c) <==> Lists(others, c);
    forall i: Id ensures (i in h.memories <==> i in k.memories) && (i in h.memories ==> h.memories[i] == k.memories[i]) {
      assert MemoryRight(g, h, rows, i) && MemoryRight(g, k, others, i);
    }
    forall p ensures p in h.mentions <==> p in k.mentions {
      assert p == (p.0, p.1);
    }
    forall p ensures p in h.inCategory <==> p in k.inCategory {
      assert p == (p.0, p.1);
    }
  }

  /** A batch of distinct memories is the same as its rows one by one in any order. */
  lemma BatchIsFold(g: Graph, rows: seq<Row>, others: seq<Row>)
    requires Agrees(g) && DistinctRows(rows) && DistinctRows(others)
    requires forall r :: r in rows <==> r in others
    ensures Upsert(g, rows) == Fold(g, others)
  {
    UpsertBase(g, rows);
    UpsertAgrees(g, rows);
    FoldBase(g, others);
    BaseUnique(g, Upsert(g, rows), Fold(g, others), rows, others);
    Determined(Upsert(g, rows), Fold(g, others));
  }
}
