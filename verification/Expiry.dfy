// Entries that expire: what the two registries share. A registry deletes expired entries only when it happens to
// come across them; the full map beside it never deletes any and tests for expiry instead.
module Expiry {
  import opened Seqs

  datatype Stored<I> = Stored(info: I, lastSeen: int)

  predicate Live<I>(s: Stored<I>, now: int, timeoutMs: int) {
    now - s.lastSeen <= timeoutMs
  }

  // What a registry lacks of the full map has expired.
  ghost predicate Prunes<I>(kept: map<string, Stored<I>>, full: map<string, Stored<I>>, now: int, timeoutMs: int) {
    && (forall id :: id in kept ==> id in full && kept[id] == full[id])
    && (forall id :: id in full && id !in kept ==> !Live(full[id], now, timeoutMs))
  }

  function LiveEntries<I>(entries: map<string, Stored<I>>, now: int, timeoutMs: int): map<string, Stored<I>> {
    map id | id in entries && Live(entries[id], now, timeoutMs) :: entries[id]
  }

  lemma {:induction false} SameLiveEntries<I>(kept: map<string, Stored<I>>, full: map<string, Stored<I>>, now: int,
      timeoutMs: int)
    requires Prunes(kept, full, now, timeoutMs)
    ensures LiveEntries(kept, now, timeoutMs) == LiveEntries(full, now, timeoutMs)
    ensures Prunes(LiveEntries(kept, now, timeoutMs), full, now, timeoutMs)
  {
  }

  // Looks at every entry once: drops the expired ones and lists the wanted ones of the rest; `ids` tells whose
  // entries the list holds.
  method Sweep<I>(entries: map<string, Stored<I>>, now: int, timeoutMs: int, wanted: string -> bool)
    returns (kept: map<string, Stored<I>>, active: seq<I>, ghost ids: seq<string>)
    ensures kept == LiveEntries(entries, now, timeoutMs)
    ensures NoDup(ids) && forall id :: id in ids <==> id in kept && wanted(id)
    ensures |active| == |ids| && forall k :: 0 <= k < |ids| ==> ids[k] in kept && active[k] == kept[ids[k]].info
  {
    kept, active, ids := entries, [], [];
    var todo := entries.Keys;
    while todo != {}
      invariant todo <= entries.Keys
      invariant forall id :: id in kept <==> id in entries && (id in todo || Live(entries[id], now, timeoutMs))
      invariant forall id :: id in kept ==> kept[id] == entries[id]
      invariant NoDup(ids)
      invariant forall id ::
                  id in ids <==> id in entries && id !in todo && Live(entries[id], now, timeoutMs) && wanted(id)
      invariant |active| == |ids| && forall k :: 0 <= k < |ids| ==> active[k] == entries[ids[k]].info
      decreases |todo|
    {
      var id :| id in todo;
      todo := todo - {id};
      if !Live(entries[id], now, timeoutMs) {
        kept := kept - {id};
      } else if wanted(id) {
        active := active + [entries[id].info];
        NoDupSnoc(ids, id);
        ids := ids + [id];
      }
    }
  }
}
