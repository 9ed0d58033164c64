/** The theorems about what watchers hold, for one tenant: only its own sessions' steps need to be serialised. */
module PerTenant {
  import opened Basics
  import opened Protocol
  import opened ServerModel
  import opened Worlds
  import opened WorldInvariants
  import opened NonInterference
  import opened Delivery
  import opened Serialised
  import opened Catalogs

  /** Whatever the other tenants do: tenant b's own steps are serialised and everything of b is dispatched. */
  ghost predicate QuietIn(moves: seq<Move>, b: string) {
    Happens(moves) && SerialisedRun(Only(moves, b)) && PendingOf(Exec(moves).pending, b) == map[]
  }

  lemma ReplicaIsExactInTenant(moves: seq<Move>, b: string, id: SessionId)
    requires QuietIn(moves, b)
    requires id in Exec(moves).boxes && Exec(moves).boxes[id].tenant == b
    requires !Exec(moves).boxes[id].closed && !Exec(moves).boxes[id].gone
    ensures var w := Exec(moves);
            && id in WatchersIn(w.server, b)
            && (var selected := WatchersIn(w.server, b)[id];
                selected != "" ==>
                  && Known(w.server, b, selected)
                  && UpdateAll(None, w.boxes[id].accepted) == Truth(SourcesIn(w.server, b), selected))
  {
    TenantsDoNotInterfere(moves, b);
    var own := Exec(Only(moves, b));
    assert own == On(Exec(moves), b) && id in own.boxes && own.boxes[id] == Exec(moves).boxes[id];
    ReplicaIsExactWhenQuiet(Only(moves, b), id);
    assert TenantOrNew(own.server, b) == TenantOrNew(Exec(moves).server, b);
  }

  lemma CatalogIsExactInTenant(moves: seq<Move>, b: string, id: SessionId)
    requires QuietIn(moves, b) && PromptRun(Only(moves, b))
    requires id in Exec(moves).boxes
    requires var box := Exec(moves).boxes[id]; box.tenant == b && box.ready && !box.closed && !box.gone
    ensures var w := Exec(moves);
            var last := LastCatalog(w.boxes[id].direct + w.boxes[id].accepted);
            && b in w.server && id in w.server[b].watchers
            && last.Some? && Shows(last.value, w.server[b].sources, w.server[b].watchers[id])
  {
    TenantsDoNotInterfere(moves, b);
    var own := Exec(Only(moves, b));
    assert own == On(Exec(moves), b) && id in own.boxes && own.boxes[id] == Exec(moves).boxes[id];
    CatalogIsExactWhenQuiet(Only(moves, b), id);
  }

  /** Delivery has no gap as soon as the steps of the session's own tenant queue its messages one at a time. */
  lemma NoGapInTenant(moves: seq<Move>, b: string, id: SessionId)
    requires Happens(moves) && (OneAtATime(Only(moves, b), id) || SerialisedRun(Only(moves, b)))
    requires id in Exec(moves).boxes && Exec(moves).boxes[id].tenant == b
    ensures var box := Exec(moves).boxes[id];
            GapFree(box.offered) && box.accepted <= AllBodies(box.offered)
  {
    TenantsDoNotInterfere(moves, b);
    var own := Exec(Only(moves, b));
    assert own == On(Exec(moves), b) && id in own.boxes && own.boxes[id] == Exec(moves).boxes[id];
    if SerialisedRun(Only(moves, b)) {
      SerialisedIsOneAtATime(Only(moves, b), id);
    }
    OneAtATimeHasNoGap(Only(moves, b), id);
  }
}
