/** What a refused load leaves of the keys that were live before it. */
module AgentLoad {
  import opened Base
  import opened KeyStoreModel
  import opened FifoModel
  import opened AgentModel

  /** Refused before the store is touched: the read failed, it is too large or no envelope,
      the nonce is not this load's, or the epoch is not new. */
  predicate RefusedUnread(store: Store, epoch: nat, nonce: seq<byte>, payload: Payload) {
    || payload.ReadFailed?
    || payload.size > 8_388_608
    || payload.envelope.None?
    || !IsNonce(payload.envelope.value.0)
    || payload.envelope.value.0 != nonce
    || epoch <= store.tracker.epoch
  }

  /** A payload refused by the decoder leaves the store as it was if and only if it was
      refused before `begin_load` went through; any later refusal has already dropped the
      private keys and moved the epoch. */
  lemma RefusalSparesExactly(store: Store, epoch: nat, nonce: seq<byte>, payload: Payload)
    requires Decode(store, epoch, nonce, payload).1.None?
    ensures Decode(store, epoch, nonce, payload).0 == store <==> RefusedUnread(store, epoch, nonce, payload)
    ensures !RefusedUnread(store, epoch, nonce, payload) ==>
              var store' := Decode(store, epoch, nonce, payload).0;
              store'.private == [] && store'.tracker == Tracker(epoch, Loading) && store'.public == store.public
  {
    hide AddAll, ValidNonce, IsNonce;
    if payload.Bytes? && payload.envelope.Some? { NonceExact(payload.envelope.value.0); }
  }

  /** The other refusal there is: an item over a limit. */
  lemma RefusedLateExactly(store: Store, epoch: nat, nonce: seq<byte>, payload: Payload)
    ensures Decode(store, epoch, nonce, payload).1.None? <==>
            || RefusedUnread(store, epoch, nonce, payload)
            || !AllWithin(payload.envelope.value.1)
  {
    hide AddAll, ValidNonce, IsNonce, AllWithin;
    if payload.Bytes? && payload.envelope.Some? {
      NonceExact(payload.envelope.value.0);
      NothingPicked();
      AddsAllWithin(Candidate(epoch, 0, false, [], [], []), [], payload.envelope.value.1);
      assert [] + payload.envelope.value.1 == payload.envelope.value.1;
    }
  }

  // ---- what a load publishes ----

  /** At most 128 items, each within its own limits. */
  predicate AllWithin(items: seq<Item>) {
    forall i | 0 <= i < |items| :: WithinLimits(i, items[i])
  }

  /** Nothing is wrong with the item itself. */
  predicate Good(item: Item): (good: bool)
    ensures good ==> item.pem.Parsed?
  {
    Printed(item) && item.pem.key.openssh.Some?
  }

  /** One identity for each good item but for later ones with a blob that is there already,
      in the order of the items, with its private key at the same place. `picked` are the
      positions of the items they were made of. */
  ghost predicate Picks(picked: seq<nat>, items: seq<Item>, public: seq<PublicIdentity>,
                        private: seq<PrivateIdentity>)
  {
    && Increasing(picked) && |picked| == |public| == |private|
    && (forall k | 0 <= k < |picked| ::
          && picked[k] < |items| && Good(items[picked[k]]) && IdentityOf(public[k], items[picked[k]])
          && private[k] == PrivateIdentity(items[picked[k]].pem.key, k))
    && (forall i | 0 <= i < |items| && Good(items[i]) :: IsThere(picked, i, public, items[i]))
  }

  /** This item, or an earlier one with its blob. */
  ghost predicate IsThere(picked: seq<nat>, i: nat, public: seq<PublicIdentity>, item: Item)
    requires |picked| == |public| && Good(item)
  {
    exists k :: 0 <= k < |picked| && picked[k] <= i && Some(public[k].blob) == item.pem.key.blob
  }

  ghost predicate Picked(items: seq<Item>, public: seq<PublicIdentity>, private: seq<PrivateIdentity>) {
    exists picked :: Picks(picked, items, public, private)
  }

  lemma StillThere(picked: seq<nat>, more: seq<nat>, i: nat, public: seq<PublicIdentity>, public': seq<PublicIdentity>,
                   item: Item)
    requires |picked| == |public| && |more| == |public'| && picked <= more && public <= public' && Good(item)
    requires IsThere(picked, i, public, item)
    ensures IsThere(more, i, public', item)
  {
    var k :| 0 <= k < |picked| && picked[k] <= i && Some(public[k].blob) == item.pem.key.blob;
    assert more[k] == picked[k] && public'[k] == public[k];
  }

  /** One more item that adds no identity. */
  lemma PicksOn(picked: seq<nat>, items: seq<Item>, public: seq<PublicIdentity>, private: seq<PrivateIdentity>,
                item: Item)
    requires Picks(picked, items, public, private)
    requires Good(item) ==> IsThere(picked, |items|, public, item)
    ensures Picks(picked, items + [item], public, private)
  {
    hide IdentityOf, IsThere, Good;
    var items' := items + [item];
    forall i | 0 <= i < |items'| && Good(items'[i]) ensures IsThere(picked, i, public, items'[i]) {
      if i < |items| { assert items'[i] == items[i]; }
    }
    assert forall k | 0 <= k < |picked| :: items'[picked[k]] == items[picked[k]];
  }

  /** One more that adds the last identity. */
  lemma PicksMore(picked: seq<nat>, items: seq<Item>, public: seq<PublicIdentity>, private: seq<PrivateIdentity>,
                  item: Item, identity: PublicIdentity)
    requires Picks(picked, items, public, private) && Good(item) && IdentityOf(identity, item)
    requires IsThere(picked + [|items|], |items|, public + [identity], item)
    ensures Picks(picked + [|items|], items + [item], public + [identity],
                  private + [PrivateIdentity(item.pem.key, |public|)])
  {
    hide IdentityOf, IsThere, Good;
    var picked', items', public' := picked + [|items|], items + [item], public + [identity];
    var private' := private + [PrivateIdentity(item.pem.key, |public|)];
    forall i | 0 <= i < |items'| && Good(items'[i]) ensures IsThere(picked', i, public', items'[i]) {
      if i < |items| {
        assert items'[i] == items[i];
        StillThere(picked, picked', i, public, public', items[i]);
      }
    }
    forall k | 0 <= k < |picked'|
      ensures && picked'[k] < |items'| && Good(items'[picked'[k]]) && IdentityOf(public'[k], items'[picked'[k]])
              && private'[k] == PrivateIdentity(items'[picked'[k]].pem.key, k)
    {
      if k < |picked| { assert items'[picked[k]] == items[picked[k]]; }
    }
  }

  lemma PicksShape(picked: seq<nat>, items: seq<Item>, public: seq<PublicIdentity>, private: seq<PrivateIdentity>)
    requires Picks(picked, items, public, private)
    ensures |picked| == |public| == |private|
  {
  }

  /** One more item. */
  lemma AddPicks(c: Candidate, items: seq<Item>, picked: seq<nat>, item: Item)
    requires Picks(picked, items, c.public, c.private) && WithinLimits(c.seen, item)
    ensures var c' := KeyStoreModel.Add(c, item).0;
            Picked(items + [item], c'.public, c'.private)
  {
    hide KeyStoreModel.Add, WithinLimits, SkippedFor, IdentityOf, IsThere, Good, Loadable, Picks;
    AddExact(c, item);
    PicksShape(picked, items, c.public, c.private);
    var (c', r) := KeyStoreModel.Add(c, item);
    AddPicksLast(c, items, picked, item);
    if r.Added? {
      var identity := c'.public[|c.public|];
      assert c'.public == c'.public[..|c.public|] + [identity];
      PicksMore(picked, items, c.public, c.private, item, identity);
    } else {
      PicksOn(picked, items, c.public, c.private, item);
    }
  }

  lemma AddPicksLast(c: Candidate, items: seq<Item>, picked: seq<nat>, item: Item)
    requires Picks(picked, items, c.public, c.private) && WithinLimits(c.seen, item)
    ensures var (c', r) := KeyStoreModel.Add(c, item);
            var picked' := if r.Added? then picked + [|items|] else picked;
            && (r.Added? ==> Good(item) && c'.public != [])
            && |c'.public| == |picked'|
            && (Good(item) ==> IsThere(picked', |items|, c'.public, item))
  {
    hide KeyStoreModel.Add, SkippedFor, WithinLimits;
    AddExact(c, item);
    var (c', r) := KeyStoreModel.Add(c, item);
    var picked' := if r.Added? then picked + [|items|] else picked;
    if r.Added? {
      assert picked'[|picked|] == |items|;
    } else if Good(item) {
      var k :| 0 <= k < |c.public| && c.public[k].blob == item.pem.key.blob.value;
      assert picked[k] <= |items|;
    }
  }

  /** A load goes through if and only if all its items are within the limits, and then its
      identities are picked from them. */
  lemma {:induction false} AddsAllWithin(c: Candidate, done: seq<Item>, items: seq<Item>)
    requires Picked(done, c.public, c.private) && c.seen == |done| && !c.failed && AllWithin(done)
    ensures var (c', complete) := AddAll(c, items);
            && (complete <==> AllWithin(done + items))
            && (complete ==> Picked(done + items, c'.public, c'.private) && !c'.failed && c'.epoch == c.epoch)
    decreases |items|
  {
    hide KeyStoreModel.Add, WithinLimits, Picks, SkippedFor, Loadable, IdentityOf;
    if items == [] {
      assert done + items == done;
    } else {
      var item := items[0];
      AddExact(c, item);
      assert (done + items)[|done|] == item;
      var (c1, r) := KeyStoreModel.Add(c, item);
      if !r.Refused? {
        var picked :| Picks(picked, done, c.public, c.private);
        AddPicks(c, done, picked, item);
        assert AllWithin(done + [item]);
        AddsAllWithin(c1, done + [item], items[1..]);
        assert done + [item] + items[1..] == done + items;
      }
    }
  }

  /** A load publishes its keys if and only if its payload was read, is of at most 8 MiB, is
      an envelope with this load's nonce, comes with a new epoch, and all its items are
      within the limits. Then the store is unlocked at that epoch with exactly the keys of
      its good items. */
  lemma LoadExactly(store: Store, load: ActiveLoad)
    requires load.payload.Some?
    ensures var payload := load.payload.value;
            var (store', ok) := LoadInto(store, load);
            && (ok <==> !RefusedUnread(store, load.epoch, load.nonce, payload)
                        && AllWithin(payload.envelope.value.1))
            && (ok ==> store'.tracker == Tracker(load.epoch, Unlocked)
                       && Picked(payload.envelope.value.1, store'.public, store'.private))
  {
    hide AddAll, ValidNonce, IsNonce, AllWithin, Picked;
    var payload := load.payload.value;
    if payload.Bytes? && payload.envelope.Some? {
      var items := payload.envelope.value.1;
      NonceExact(payload.envelope.value.0);
      NothingPicked();
      AddsAllWithin(Candidate(load.epoch, 0, false, [], [], []), [], items);
      assert [] + items == items;
    }
  }

  lemma NothingPicked()
    ensures Picked([], [], []) && AllWithin([])
  {
    assert Picks([], [], [], []);
  }

  /** A live set of keys wiped by a payload that is refused: its item has too long an id. */
  lemma LiveKeysWiped(store: Store, nonce: seq<byte>, item: Item)
    requires store.private != [] && Allows(store.tracker, store.tracker.epoch) && ValidNonce(nonce)
    requires |item.itemId| > MAX_METADATA_BYTES && item.pemBytes <= MAX_PEM_BYTES
    ensures var payload := Bytes(1, Some((nonce, [item])));
            var (store', candidate) := Decode(store, store.tracker.epoch + 1, nonce, payload);
            candidate.None? && store'.private == []
  {
    var c := Candidate(store.tracker.epoch + 1, 0, false, [], [], []);
    assert Add(c, item).1.Refused?;
    assert [item][0] == item;
  }

  /** Whatever the reason, once the loop has dealt with a refused load no private key is left
      and the store is locked. */
  lemma RefusedLoadLocks(s: Agent)
    requires FinishLoad(s).1.LoadRefused?
    ensures var s' := FinishLoad(s).0;
            && s'.store.private == [] && !s'.gateOpen && s'.load.None?
            && (s'.store.tracker.state == LockedCached || s'.store.tracker.state == LockedEmpty)
            && s'.store.public == s.store.public
  {
    hide AddAll, AnnounceEach, ValidNonce;
  }
}
