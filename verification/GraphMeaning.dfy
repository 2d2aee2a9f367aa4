/** What upserts and deletions mean for single nodes and edges, in terms of the rows and fields alone. */
module GraphMeaning {
  import opened Wrappers
  import opened GraphIndex

  lemma SameRow(rows: seq<Row>, r: Row, q: Row)
    requires DistinctRows(rows) && r in rows && q in rows && q.id == r.id
    ensures q == r
  {
    var i :| 0 <= i < |rows| && rows[i] == r;
    var j :| 0 <= j < |rows| && rows[j] == q;
  }

  /**
  After an upsert of distinct memories each of them has its fields as given, mentions exactly the entities
  of its row, each in its own project and of its own kind, and lies in exactly the categories of its row.
   */
  lemma UpsertMeans(g: Graph, rows: seq<Row>, r: Row, p: nat, k: Kind, n: nat)
    requires DistinctRows(rows) && r in rows
    ensures var h := Upsert(g, rows);
            && r.id in h.memories && h.memories[r.id] == r.memory
            && ((r.id, Entity(p, k, n)) in h.mentions <==> p == r.memory.project && Mentioned(k, n) in r.entities)
            && ((r.id, Category(p, n)) in h.inCategory <==> p == r.memory.project && n in r.categories)
  {
    var h, e, c := Upsert(g, rows), Entity(p, k, n), Category(p, n);
    UpsertBase(g, rows);
    assert MemoryRight(g, h, rows, r.id);
    assert r.id in Ids(rows);
    forall q | q in rows && q.id == r.id ensures q == r {
      SameRow(rows, r, q);
    }
    assert Mentions(rows, r.id, e) <==> e in EntitiesOf(r);
    assert Files(rows, r.id, c) <==> c in CategoriesOf(r);
    assert (r.id, e) in h.mentions <==> Mentions(rows, r.id, e);
    assert (r.id, c) in h.inCategory <==> Files(rows, r.id, c);
    hide Upsert, BaseIs, Ids;
    assert e in EntitiesOf(r) <==> p == r.memory.project && Mentioned(k, n) in r.entities by {
      if p == r.memory.project && Mentioned(k, n) in r.entities {
        assert Entity(r.memory.project, Mentioned(k, n).kind, Mentioned(k, n).norm) == e;
      }
    }
  }

  /** Memories the upsert does not name stay as they are, with all they mention and where they lie. */
  lemma UpsertSpares(g: Graph, rows: seq<Row>, i: Id, e: Entity, c: Category)
    requires DistinctRows(rows) && forall r :: r in rows ==> r.id != i
    ensures var h := Upsert(g, rows);
            && (i in h.memories <==> i in g.memories) && (i in g.memories ==> h.memories[i] == g.memories[i])
            && ((i, e) in h.mentions <==> (i, e) in g.mentions) && ((i, c) in h.inCategory <==> (i, c) in g.inCategory)
  {
    UpsertBase(g, rows);
    assert i !in Ids(rows) && MemoryRight(g, Upsert(g, rows), rows, i);
    assert !Mentions(rows, i, e) && !Files(rows, i, c);
    hide Upsert, Ids, Mentions, Files;
  }

  // The two memories have a scope in common: one non-empty field, or none at all.
  predicate CommonScope(a: Memory, b: Memory) {
    || (a.user == b.user && a.user != 0) || (a.agent == b.agent && a.agent != 0)
    || (a.app == b.app && a.app != 0) || (a.run == b.run && a.run != 0)
    || (a.user == a.agent == a.app == a.run == 0 && b.user == b.agent == b.app == b.run == 0)
  }

  lemma SharedMeans(g: Graph, a: Id, b: Id, n: nat)
    requires Anchored(g) && a in g.memories && b in g.memories
    ensures n in SharedNorms(g, a, b) <==>
              && (a, Entity(g.memories[a].project, MemoryKind, n)) in g.mentions
              && (b, Entity(g.memories[a].project, MemoryKind, n)) in g.mentions
  {
    var e := Entity(g.memories[a].project, MemoryKind, n);
    if n in SharedNorms(g, a, b) {
      var p :| p in g.mentions && p.0 == a && (b, p.1) in g.mentions && p.1.kind.MemoryKind? && p.1.norm == n;
      assert p == (a, p.1) && p.1 == e;
    }
    if (a, e) in g.mentions && (b, e) in g.mentions {
      assert (a, e).1.norm == n;
    }
  }

  /**
  In an agreeing graph two memories are related exactly if they are different, of one project and with a
  scope in common, and mention one memory-kind entity both; the edge lists the names of exactly those.
   */
  lemma RelatedMeans(g: Graph, a: Id, b: Id)
    requires Agrees(g)
    ensures (a, b) in g.related <==>
              && a != b && a in g.memories && b in g.memories
              && g.memories[a].project == g.memories[b].project && CommonScope(g.memories[a], g.memories[b])
              && exists n :: (a, Entity(g.memories[a].project, MemoryKind, n)) in g.mentions
                             && (b, Entity(g.memories[a].project, MemoryKind, n)) in g.mentions
    ensures (a, b) in g.related ==>
              && a in g.memories && b in g.memories
              && forall n :: n in g.related[(a, b)] <==>
                               && (a, Entity(g.memories[a].project, MemoryKind, n)) in g.mentions
                               && (b, Entity(g.memories[a].project, MemoryKind, n)) in g.mentions
  {
    assert (a, b) in g.related <==> Linked(g, a, b);
    if a in g.memories && b in g.memories {
      forall n ensures n in SharedNorms(g, a, b) <==>
                         && (a, Entity(g.memories[a].project, MemoryKind, n)) in g.mentions
                         && (b, Entity(g.memories[a].project, MemoryKind, n)) in g.mentions
      {
        SharedMeans(g, a, b, n);
      }
      assert SharedNorms(g, a, b) != {} <==> exists n :: n in SharedNorms(g, a, b);
      hide SharedNorms;
    }
  }

  /** So two memories with a common scope and a common entity are related both ways once both are upserted. */
  lemma UpsertsRelate(g: Graph, r: Row, q: Row, n: nat)
    requires Agrees(g) && r.id != q.id && r.memory.project == q.memory.project && CommonScope(r.memory, q.memory)
    requires Mentioned(MemoryKind, n) in r.entities && Mentioned(MemoryKind, n) in q.entities
    ensures var h := Upsert(Upsert(g, [r]), [q]);
            && (r.id, q.id) in h.related && (q.id, r.id) in h.related
            && n in h.related[(r.id, q.id)] && n in h.related[(q.id, r.id)]
  {
    var g1 := Upsert(g, [r]);
    var h, p := Upsert(g1, [q]), r.memory.project;
    UpsertAgrees(g, [r]);
    UpsertAgrees(g1, [q]);
    UpsertMeans(g, [r], r, p, MemoryKind, n);
    UpsertMeans(g1, [q], q, p, MemoryKind, n);
    UpsertSpares(g1, [q], r.id, Entity(p, MemoryKind, n), Category(0, 0));
    hide Upsert, Agrees;
    RelatedMeans(h, r.id, q.id);
    RelatedMeans(h, q.id, r.id);
  }

  /****** deletions ******/

  /** A deletion takes exactly the memory, and of its project the entities nobody mentions any more. */
  lemma DeleteMeans(g: Graph, id: Id, fallback: nat, i: Id, e: Entity)
    requires Agrees(g) && (id in g.memories ==> g.memories[id].project == e.project) && (id !in g.memories ==> fallback == e.project)
    ensures var h := Delete(g, id, fallback);
            && (i in h.memories <==> i in g.memories && i != id) && (i in h.memories ==> h.memories[i] == g.memories[i])
            && ((i, e) in h.mentions <==> (i, e) in g.mentions && i != id)
            && (e in h.entities <==> exists j :: (j, e) in g.mentions && j != id)
  {
    var d, project := Detach(g, {id}), if id in g.memories then g.memories[id].project else fallback;
    DetachAgrees(g, {id});
    PruneKeepsEdges(d, project);
    PruneIsTight(d, project, e);
    assert (i, e) in d.mentions <==> (i, e) in g.mentions && i != id;
    if p :| p in d.mentions && p.1 == e {
      assert p == (p.0, e) && (p.0, e) in g.mentions;
    }
    if j :| (j, e) in g.mentions && j != id {
      assert (j, e) in d.mentions && (j, e).1 == e;
    }
    hide Agrees, Prune;
  }

  /** Likewise of the categories. */
  lemma DeleteFromCategories(g: Graph, id: Id, fallback: nat, i: Id, c: Category)
    requires Agrees(g) && (id in g.memories ==> g.memories[id].project == c.project) && (id !in g.memories ==> fallback == c.project)
    ensures var h := Delete(g, id, fallback);
            && ((i, c) in h.inCategory <==> (i, c) in g.inCategory && i != id)
            && (c in h.categories <==> exists j :: (j, c) in g.inCategory && j != id)
  {
    var d, project := Detach(g, {id}), if id in g.memories then g.memories[id].project else fallback;
    DetachAgrees(g, {id});
    assert forall j :: (j, c) in d.inCategory <==> (j, c) in g.inCategory && j != id;
    hide Detach;
    CategoryStays(d, project, c);
    assert (i, c) in d.inCategory ==> (i, c).1 == c;
    if j :| (j, c) in g.inCategory && j != id {
      assert (j, c) in d.inCategory;
    }
    hide Agrees;
  }

  lemma CategoryStays(d: Graph, project: nat, c: Category)
    requires Anchored(d) && c.project == project
    ensures var h := Prune(d, project);
            && (c in h.categories <==> exists j :: (j, c) in d.inCategory)
            && forall j :: (j, c) in h.inCategory <==> (j, c) in d.inCategory
  {
    if exists j :: (j, c) in d.inCategory {
      var j :| (j, c) in d.inCategory;
      assert (j, c).1 == c && (j, c).0 in d.memories && d.memories[(j, c).0].project == project && c in d.categories;
      assert !Unused(d, c, project);
    } else {
      assert forall p :: p in d.inCategory && p.1 == c ==> p == (p.0, c);
      assert Unused(d, c, project);
    }
  }

  /** And nothing of another project goes. */
  lemma DeleteSpares(g: Graph, id: Id, fallback: nat, e: Entity, c: Category)
    requires var project := if id in g.memories then g.memories[id].project else fallback; e.project != project && c.project != project
    ensures var h := Delete(g, id, fallback); (e in h.entities <==> e in g.entities) && (c in h.categories <==> c in g.categories)
  {
  }

  /** Deleting by filter takes exactly the memories of the project that have every given field as given. */
  lemma DeleteManyMeans(g: Graph, project: nat, f: Filter, i: Id)
    ensures var h := DeleteMany(g, project, f);
            && (i in h.memories <==>
                  && i in g.memories
                  && !(&& g.memories[i].project == project
                       && (f.user == None || f.user == Some(g.memories[i].user)) && (f.agent == None || f.agent == Some(g.memories[i].agent))
                       && (f.app == None || f.app == Some(g.memories[i].app)) && (f.run == None || f.run == Some(g.memories[i].run))))
            && (i in h.memories ==> h.memories[i] == g.memories[i])
  {
  }

  /** And of the project exactly the entities and categories stay that some memory left there mentions or lies in. */
  lemma DeleteManyPrunes(g: Graph, project: nat, f: Filter, e: Entity, c: Category)
    requires Agrees(g) && e.project == project == c.project
    ensures var h := DeleteMany(g, project, f);
            && (e in h.entities <==> exists j :: (j, e) in g.mentions && j in h.memories)
            && (c in h.categories <==> exists j :: (j, c) in g.inCategory && j in h.memories)
  {
    var gone := set i | i in g.memories && Selects(f, project, g.memories[i]);
    var d := Detach(g, gone);
    DetachAgrees(g, gone);
    assert DeleteMany(g, project, f).memories == d.memories;
    assert Anchored(g);
    assert forall j :: (j, e) in g.mentions ==> (j, e).0 in g.memories;
    assert forall j :: (j, c) in g.inCategory ==> (j, c).0 in g.memories;
    assert forall j :: (j, e) in d.mentions <==> (j, e) in g.mentions && j in d.memories;
    assert forall j :: (j, c) in d.inCategory <==> (j, c) in g.inCategory && j in d.memories;
    hide Detach, Selects;
    PruneIsTight(d, project, e);
    CategoryStays(d, project, c);
    hide Agrees, Prune, Anchored;
    if p :| p in d.mentions && p.1 == e {
      assert p == (p.0, e) && (p.0, e) in d.mentions;
    }
    if j :| (j, e) in g.mentions && j in d.memories {
      assert (j, e) in d.mentions && (j, e).1 == e;
    }
  }
}
