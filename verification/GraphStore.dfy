/** The graph as the driver changes it in place, query by query and row by row. */
module GraphStore {
  import opened Wrappers
  import G = GraphIndex
  import opened GraphIndex

  class GraphStore {
    var memories: map<Id, Memory>
    var entities: set<Entity>
    var categories: set<Category>
    var mentions: set<(Id, Entity)>
    var hasMemory: set<(Entity, Id)>
    var inCategory: set<(Id, Category)>
    var related: map<(Id, Id), set<nat>>

    function State(): Graph
      reads this
    {
      Graph(memories, entities, categories, mentions, hasMemory, inCategory, related)
    }

    constructor ()
      ensures State() == EMPTY
    {
      memories, entities, categories, mentions, hasMemory, inCategory, related := map[], {}, {}, {}, {}, {}, map[];
    }

    // MERGE the memory nodes row by row.
    method MergeMemories(rows: seq<Row>)
      modifies this`memories
      ensures memories == PutAll(old(memories), rows)
    {
      for n := 0 to |rows|
        invariant PutAll(memories, rows[n..]) == PutAll(old(memories), rows)
      {
        assert rows[n..][1..] == rows[n + 1..];
        memories := memories[rows[n].id := rows[n].memory];
      }
    }

    // The first query: the nodes, then their outgoing and their incoming edges
    method StoreMemories(rows: seq<Row>)
      modifies this`memories, this`mentions, this`hasMemory, this`inCategory, this`related
      ensures State() == Store(old(State()), rows)
    {
      MergeMemories(rows);
      var ids := Ids(rows);
      hide Ids, PutAll;
      mentions := set p | p in mentions && p.0 !in ids;
      inCategory := set p | p in inCategory && p.0 !in ids;
      related := map p | p in related && p.0 !in ids :: related[p];
      hasMemory := set p | p in hasMemory && p.1 !in ids;
      related := map p | p in related && p.1 !in ids :: related[p];
    }

    method MentionEntities(rows: seq<Row>)
      modifies this`entities, this`mentions, this`hasMemory
      ensures State() == MentionAll(old(State()), rows)
    {
      for n := 0 to |rows|
        invariant MentionAll(State(), rows[n..]) == MentionAll(old(State()), rows)
      {
        assert rows[n..][1..] == rows[n + 1..];
        var es := EntitiesOf(rows[n]);
        entities := entities + es;
        mentions := mentions + set e | e in es :: (rows[n].id, e);
        hasMemory := hasMemory + set e | e in es :: (e, rows[n].id);
      }
    }

    method FileUnderCategories(rows: seq<Row>)
      modifies this`categories, this`inCategory
      ensures State() == CategorizeAll(old(State()), rows)
    {
      for n := 0 to |rows|
        invariant CategorizeAll(State(), rows[n..]) == CategorizeAll(old(State()), rows)
      {
        assert rows[n..][1..] == rows[n + 1..];
        var cs := CategoriesOf(rows[n]);
        categories := categories + cs;
        inCategory := inCategory + set c | c in cs :: (rows[n].id, c);
      }
    }

    method RelateMemories(rows: seq<Row>)
      modifies this`related
      ensures State() == RelateAll(old(State()), rows)
    {
      for n := 0 to |rows|
        invariant RelateAll(State(), rows[n..]) == RelateAll(old(State()), rows)
      {
        assert rows[n..][1..] == rows[n + 1..];
        var g, r := State(), rows[n];
        hide There, Back;
        related := related + There(g, r);
        related := related + Back(g, r);
        assert State() == Relate(g, r);
      }
    }

    // The four queries of one write transaction
    method UpsertMemoriesBatch(rows: seq<Row>) returns (written: nat)
      modifies this
      ensures State() == Upsert(old(State()), rows) && written == |rows|
    {
      StoreMemories(rows);
      MentionEntities(rows);
      FileUnderCategories(rows);
      RelateMemories(rows);
      written := |rows|;
    }

    method UpsertMemory(row: Row)
      modifies this
      ensures State() == Upsert(old(State()), [row])
    {
      var _ := UpsertMemoriesBatch([row]);
    }

    method DetachDelete(gone: set<Id>)
      modifies this`memories, this`mentions, this`hasMemory, this`inCategory, this`related
      ensures State() == Detach(old(State()), gone)
    {
      memories := memories - gone;
      mentions := set p | p in mentions && p.0 !in gone;
      hasMemory := set p | p in hasMemory && p.1 !in gone;
      inCategory := set p | p in inCategory && p.0 !in gone;
      related := map p | p in related && p.0 !in gone && p.1 !in gone :: related[p];
    }

    // Entities first, then categories; each with its remaining edges
    method PruneOrphans(project: nat)
      modifies this`entities, this`mentions, this`hasMemory, this`categories, this`inCategory
      ensures State() == Prune(old(State()), project)
    {
      var g := State();
      entities := set e | e in g.entities && !Orphan(g, e, project);
      mentions := set p | p in g.mentions && !Orphan(g, p.1, project);
      hasMemory := set p | p in g.hasMemory && !Orphan(g, p.0, project);
      var h := State();
      assert forall c :: Unused(h, c, project) == Unused(g, c, project);
      categories := set c | c in h.categories && !Unused(h, c, project);
      inCategory := set p | p in h.inCategory && !Unused(h, p.1, project);
    }

    method DeleteMemory(id: Id, fallback: nat)
      modifies this
      ensures State() == Delete(old(State()), id, fallback)
    {
      var project := if id in memories then memories[id].project else fallback;
      DetachDelete({id});
      PruneOrphans(project);
    }

    method DeleteMemories(project: nat, filter: Filter)
      modifies this
      ensures State() == DeleteMany(old(State()), project, filter)
    {
      DetachDelete(set i | i in memories && Selects(filter, project, memories[i]));
      PruneOrphans(project);
    }
  }
}
