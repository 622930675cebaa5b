/** The Redis side of sessions as it is changed in place: the scripts of internal/identity/sessions.go and its read
    path. */
module SessionStore {
  import opened Numbers
  import opened Wrappers
  import opened Sessions

  class Store {
    var keys: map<Key, Entry>
    var index: map<User, Index>

    ghost function View(): Redis
      reads this
    {
      Redis(keys, index)
    }

    constructor ()
      ensures View() == Redis(map[], map[])
    {
      keys, index := map[], map[];
    }

    /** Drops the index entries that the caller's clock has passed, then stores and indexes the key. */
    method Create(k: Key, u: User, kind: Kind, now: int, t: int)
      modifies this
      ensures View() == CreateScript(old(View()), k, u, kind, now, t)
    {
      var live: map<Key, int> := if u in index && t < index[u].deadline then index[u].scores else map[];
      var scores := live;
      var expired := set m | m in live && live[m] <= now;
      while expired != {}
        invariant expired <= set m | m in live && live[m] <= now
        invariant forall m :: m in scores <==> m in live && (live[m] > now || m in expired)
        invariant forall m :: m in scores ==> scores[m] == live[m]
        decreases expired
      {
        var m :| m in expired;
        scores := scores - {m};
        expired := expired - {m};
      }
      ghost var kept := map m | m in live && live[m] > now :: live[m];
      assert forall m :: m in scores <==> m in kept;
      assert scores == kept;
      keys := keys[k := Entry(u, kind, now, t + Ttl(kind))];
      index := index[u := Index(scores[k := now + Life(kind)], t + LIFETIME)];
    }

    method Revoke(k: Key, u: User, t: int)
      modifies this
      ensures View() == RevokeScript(old(View()), k, u, t)
      ensures !Alive(View(), k, t) && k !in Scores(View(), u, t)
      ensures forall m :: m != k ==> Alive(View(), m, t) == Alive(old(View()), m, t)
      ensures forall m, v :: m != k && v in old(index) && m in old(index)[v].scores ==>
                v in index && m in index[v].scores
    {
      keys := keys - {k};
      if u in index {
        index := index[u := index[u].(scores := index[u].scores - {k})];
      }
    }

    /** Deletes every indexed key of the user, then the index. */
    method RevokeUser(u: User, t: int)
      modifies this
      ensures View() == RevokeUserScript(old(View()), u, t)
    {
      var members: set<Key> := if u in index && t < index[u].deadline then index[u].scores.Keys else {};
      var rest := members;
      while rest != {}
        invariant rest <= members && index == old(index)
        invariant keys == old(keys) - (members - rest)
        decreases rest
      {
        var k :| k in rest;
        assert members - (rest - {k}) == (members - rest) + {k};
        assert old(keys) - (members - rest) - {k} == old(keys) - ((members - rest) + {k});
        keys := keys - {k};
        rest := rest - {k};
      }
      assert members - {} == members;
      index := index - {u};
    }

    /** Reads and renews: the key read at one instant is renewed at a later one, only if it is still there. */
    method Read(k: Key, got: Entry, now: int, t: int) returns (ok: bool)
      requires got.kind == SessionKey
      modifies this
      ensures ok == (got.createdAt + LIFETIME - now > 0 && Alive(old(View()), k, t))
      ensures View() == if got.createdAt + LIFETIME - now <= 0 then RevokeScript(old(View()), k, got.user, t)
                        else RenewScript(old(View()), k, Min(got.createdAt + LIFETIME - now, IDLE), t)
      ensures ok ==>
                && k in keys && index == old(index) && keys == old(keys)[k := keys[k]]
                && keys[k] == old(keys)[k].(deadline := keys[k].deadline)
                && var left := got.createdAt + 30 * 86_400_000 - now;
                   keys[k].deadline == t + (if left < 7 * 86_400_000 then left else 7 * 86_400_000)
      ensures !ok ==> forall m :: m != k ==> (m in keys <==> m in old(keys)) && (m in keys ==> keys[m] == old(keys)[m])
      ensures !ok && got.createdAt + 30 * 86_400_000 > now ==> View() == old(View())
    {
      var remaining := got.createdAt + LIFETIME - now;
      if remaining <= 0 {
        Revoke(k, got.user, t);
        return false;
      }
      if k !in keys || t >= keys[k].deadline {
        return false;
      }
      keys := keys[k := keys[k].(deadline := t + Min(remaining, IDLE))];
      ok := true;
    }

    /** A signed reference is good until Redis drops the key or its thirty days end, whichever is first; checking does
        not renew. `got` is the key as first read, if it was there; its remaining time is read at `t`. */
    method ExpiresAt(k: Key, u: User, got: Option<Entry>, now: int, t: int, end: int) returns (r: Option<int>)
      requires now <= t <= end
      ensures r.Some? <==>
                && got.Some? && got.value.user == u && Alive(View(), k, t)
                && end < now + (keys[k].deadline - t) && end < got.value.createdAt + LIFETIME
      ensures r.Some? ==>
                && var idle, absolute := now + (keys[k].deadline - t), got.value.createdAt + 30 * 86_400_000;
                   r.value == if absolute < idle then absolute else idle
      ensures got.Some? ==> r == Reference(got.value, View(), k, u, now, t, end)
    {
      if got.None? {
        return None;
      }
      if k !in keys || got.value.user != u || keys[k].deadline - t <= 0 {
        return None;
      }
      var deadline := now + (keys[k].deadline - t);
      var absolute := got.value.createdAt + LIFETIME;
      if absolute < deadline {
        deadline := absolute;
      }
      if deadline <= end {
        return None;
      }
      r := Some(deadline);
    }
  }
}
