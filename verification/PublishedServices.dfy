/**
  Services plugins publish to each other, and the leases that pin them: two indexes that must stay
  inverse, and a consumer set per publication. A request carries its service name already canonical,
  or `None` when the name is not acceptable.
 */
module PublishedServices {
  import opened Options

  const HANDLE_SPACE: nat := 0x1_0000_0000_0000_0000

  datatype Result = Ok | InvalidArgument | NotReady | AlreadyExists | NotFound | Busy | Incompatible

  datatype Key = Key(name: string, version: nat)
  datatype Publication = Publication(provider: nat, key: Key, service: nat, consumers: set<nat>)

  /** The abstract registry: `next` is the next handle, 0 once the handle space is used up. */
  datatype Registry = Registry(pubs: map<nat, Publication>, byKey: map<Key, nat>, next: nat) {

    ghost predicate Valid() {
      && (forall k :: k in byKey ==> byKey[k] in pubs && pubs[byKey[k]].key == k)
      && (forall h :: h in pubs ==> pubs[h].key in byKey && byKey[pubs[h].key] == h)
      && (forall h :: h in pubs ==> h != 0 && (next == 0 || h < next))
      && (forall h :: h in pubs ==> pubs[h].provider !in pubs[h].consumers)
      && next < HANDLE_SPACE
    }

    ghost predicate Leased(provider: nat) {
      exists h :: h in pubs && pubs[h].provider == provider && pubs[h].consumers != {}
    }

    ghost predicate Lends(handle: nat, consumer: nat) {
      handle in pubs && consumer in pubs[handle].consumers
    }

    /** The same services are on offer, whoever leases them. */
    ghost predicate SameOffers(other: Registry) {
      && pubs.Keys == other.pubs.Keys && byKey == other.byKey && next == other.next
      && forall h :: h in pubs ==> pubs[h].(consumers := {}) == other.pubs[h].(consumers := {})
    }

    ghost predicate Named(name: string) {
      exists h :: h in pubs && pubs[h].key.name == name
    }

    /** `plugin` is a consumer of the publication at this name and version. */
    ghost predicate Leases(plugin: nat, name: Option<string>, version: nat) {
      && name.Some? && version != 0 && Key(name.value, version) in byKey
      && byKey[Key(name.value, version)] in pubs && plugin in pubs[byKey[Key(name.value, version)]].consumers
    }

    ghost predicate Serves(key: Key, consumer: nat, running: set<nat>)
      requires key in byKey && byKey[key] in pubs
    {
      pubs[byKey[key]].provider == consumer || pubs[byKey[key]].provider in running
    }

    ghost function Queried(handle: nat, consumer: nat): Registry
      requires handle in pubs
    {
      if pubs[handle].provider == consumer then this else Consumed(handle, consumer)
    }

    ghost function Published(plugin: nat, key: Key, service: nat): Registry {
      Registry(pubs[next := Publication(plugin, key, service, {})], byKey[key := next], (next + 1) % HANDLE_SPACE)
    }

    ghost function Withdrawn(handle: nat): Registry
      requires handle in pubs
    {
      this.(pubs := pubs - {handle}, byKey := byKey - {pubs[handle].key})
    }

    ghost function Consumed(handle: nat, consumer: nat): Registry
      requires handle in pubs
    {
      this.(pubs := pubs[handle := pubs[handle].(consumers := pubs[handle].consumers + {consumer})])
    }

    ghost function Unconsumed(handle: nat, consumer: nat): Registry
      requires handle in pubs
    {
      this.(pubs := pubs[handle := pubs[handle].(consumers := pubs[handle].consumers - {consumer})])
    }

    /** Everything a plugin leased or published is gone. */
    ghost function Without(plugin: nat): Registry {
      this.(pubs := map h | h in pubs && pubs[h].provider != plugin :: pubs[h].(consumers := pubs[h].consumers - {plugin}),
            byKey := map k | k in byKey && byKey[k] in pubs && pubs[byKey[k]].provider != plugin :: byKey[k])
    }

    lemma PublishedValid(plugin: nat, key: Key, service: nat)
      requires Valid() && key !in byKey && next != 0
      ensures Published(plugin, key, service).Valid()
    {
    }

    lemma WithdrawnValid(handle: nat)
      requires Valid() && handle in pubs
      ensures Withdrawn(handle).Valid()
    {
    }

    /** What is left when everything of a plugin goes that nobody leases anything of. */
    lemma WithoutIs(plugin: nat, handle: nat, consumer: nat)
      requires Valid() && !Leased(plugin)
      ensures Without(plugin).Lends(handle, consumer) <==> Lends(handle, consumer) && consumer != plugin
      ensures handle in Without(plugin).pubs <==> handle in pubs && pubs[handle].provider != plugin
      ensures handle in Without(plugin).pubs ==>
        Without(plugin).pubs[handle].(consumers := {}) == pubs[handle].(consumers := {})
    {
      assert Lends(handle, consumer) ==> pubs[handle].provider != plugin;
    }

    lemma WithoutValid(plugin: nat)
      requires Valid()
      ensures Without(plugin).Valid()
    {
    }
  }

  class PublishedServiceRegistry {
    var publications: map<nat, Publication>
    var byKey: map<Key, nat>
    var next: nat

    ghost function View(): Registry
      reads this
    {
      Registry(publications, byKey, next)
    }

    ghost predicate Valid()
      reads this
    {
      View().Valid()
    }

    constructor ()
      ensures Valid() && View() == Registry(map[], map[], 1)
    {
      publications, byKey, next := map[], map[], 1;
    }

    /** `ready`: the host and the owner accept resources. */
    method Publish(plugin: nat, name: Option<string>, version: nat, service: nat, ready: bool)
          returns (result: Result, handle: nat)
      requires Valid()
      modifies this
      ensures Valid()
      ensures result == (if name.None? || version == 0 || service == 0 then InvalidArgument
                         else if !ready || old(next) == 0 then NotReady
                         else if Key(name.value, version) in old(byKey) then AlreadyExists
                         else Ok)
      ensures result == Ok ==> handle == old(next) && handle !in old(publications)
      ensures result == Ok ==> View() == old(View()).Published(plugin, Key(name.value, version), service)
      ensures result == Ok ==> publications == old(publications)[handle := Publication(plugin, Key(name.value, version), service, {})]
      ensures result == Ok ==> byKey == old(byKey)[Key(name.value, version) := handle] && next != handle
      ensures result != Ok ==> View() == old(View()) && handle == 0
    {
      handle := 0;
      if version == 0 || service == 0 || name.None? {
        return InvalidArgument, 0;
      }
      if !ready || next == 0 {
        return NotReady, 0;
      }
      var key := Key(name.value, version);
      if key in byKey {
        return AlreadyExists, 0;
      }
      View().PublishedValid(plugin, key, service);
      handle := next;
      next := (next + 1) % HANDLE_SPACE;
      byKey := byKey[key := handle];
      publications := publications[handle := Publication(plugin, key, service, {})];
      return Ok, handle;
    }

    /** `ready`: the owner accepts resources or is preparing to stop. */
    method Withdraw(plugin: nat, handle: nat, ready: bool) returns (result: Result)
      requires Valid()
      modifies this
      ensures Valid()
      ensures result == (if handle == 0 then InvalidArgument
                         else if !ready then NotReady
                         else if handle !in old(publications) || old(publications)[handle].provider != plugin then NotFound
                         else if old(publications)[handle].consumers != {} then Busy
                         else Ok)
      ensures View() == if result == Ok then old(View()).Withdrawn(handle) else old(View())
      ensures result == Ok ==> handle !in publications && old(publications)[handle].key !in byKey
      ensures forall h :: h in old(publications) && h != handle ==>
        h in publications && publications[h] == old(publications)[h] && byKey[publications[h].key] == h
    {
      if handle == 0 {
        return InvalidArgument;
      }
      if !ready {
        return NotReady;
      }
      if handle !in publications || publications[handle].provider != plugin {
        return NotFound;
      }
      if publications[handle].consumers != {} {
        return Busy;
      }
      View().WithdrawnValid(handle);
      byKey := byKey - {publications[handle].key};
      publications := publications - {handle};
      return Ok;
    }

    method Release(plugin: nat, name: Option<string>, version: nat, ready: bool) returns (result: Result)
      requires Valid()
      modifies this
      ensures Valid()
      ensures result == (if name.None? || version == 0 then InvalidArgument
                         else if !ready then NotReady
                         else if old(View()).Leases(plugin, name, version) then Ok
                         else NotFound)
      ensures View() == if result == Ok then old(View()).Unconsumed(old(byKey)[Key(name.value, version)], plugin) else old(View())
      ensures View().SameOffers(old(View()))
      ensures forall h, c :: View().Lends(h, c) <==>
        old(View()).Lends(h, c) && !(result == Ok && c == plugin && h == old(byKey)[Key(name.value, version)])
    {
      if version == 0 || name.None? {
        return InvalidArgument;
      }
      if !ready {
        return NotReady;
      }
      var key := Key(name.value, version);
      if key !in byKey {
        return NotFound;
      }
      var handle := byKey[key];
      var publication := publications[handle];
      if plugin !in publication.consumers {
        return NotFound;
      }
      publications := publications[handle := publication.(consumers := publication.consumers - {plugin})];
      return Ok;
    }

    /** `running`: the plugins that are loaded and not in a transition. */
    method Query(consumer: nat, name: Option<string>, version: nat, running: set<nat>)
          returns (result: Result, service: nat)
      requires Valid()
      modifies this
      ensures Valid()
      ensures result == (if name.None? || version == 0 then InvalidArgument
                         else if Key(name.value, version) in old(byKey)
                         then if old(View()).Serves(Key(name.value, version), consumer, running) then Ok else NotReady
                         else if old(View()).Named(name.value) then Incompatible
                         else NotFound)
      ensures result == Ok ==> service == old(publications)[old(byKey)[Key(name.value, version)]].service
      ensures result == Ok ==> View() == old(View()).Queried(old(byKey)[Key(name.value, version)], consumer)
      ensures View().SameOffers(old(View()))
      ensures forall h, c :: View().Lends(h, c) <==>
        old(View()).Lends(h, c) ||
        (result == Ok && c == consumer && h == old(byKey)[Key(name.value, version)] && old(publications)[h].provider != consumer)
      ensures result != Ok ==> View() == old(View()) && service == 0
    {
      service := 0;
      if version == 0 || name.None? {
        return InvalidArgument, 0;
      }
      var key := Key(name.value, version);
      if key !in byKey {
        var found := NameExists(name.value);
        return (if found then Incompatible else NotFound), 0;
      }
      var handle := byKey[key];
      var publication := publications[handle];
      if publication.provider == consumer {
        return Ok, publication.service;
      }
      if publication.provider !in running {
        return NotReady, 0;
      }
      publications := publications[handle := publication.(consumers := publication.consumers + {consumer})];
      return Ok, publication.service;
    }

    method NameExists(name: string) returns (found: bool)
      ensures found <==> View().Named(name)
    {
      var todo := publications.Keys;
      while todo != {}
        invariant todo <= publications.Keys
        invariant forall h :: h in publications && h !in todo ==> publications[h].key.name != name
        decreases todo
      {
        var h :| h in todo;
        if publications[h].key.name == name {
          return true;
        }
        todo := todo - {h};
      }
      return false;
    }

    method HasLeasedPublication(provider: nat) returns (leased: bool)
      ensures leased <==> View().Leased(provider)
    {
      var todo := publications.Keys;
      while todo != {}
        invariant todo <= publications.Keys
        invariant forall h :: h in publications && h !in todo ==> publications[h].provider != provider || publications[h].consumers == {}
        decreases todo
      {
        var h :| h in todo;
        if publications[h].provider == provider && publications[h].consumers != {} {
          return true;
        }
        todo := todo - {h};
      }
      return false;
    }

    /** Drop everything of a plugin, unless someone still leases one of its services. */
    method ReleasePlugin(plugin: nat) returns (result: Result)
      requires Valid()
      modifies this
      ensures Valid()
      ensures result == (if old(View()).Leased(plugin) then Busy else Ok)
      ensures View() == if result == Ok then old(View()).Without(plugin) else old(View())
    {
      var leased := HasLeasedPublication(plugin);
      if leased {
        return Busy;
      }
      ghost var before := View();
      DropConsumer(plugin);
      DropProvider(plugin);
      before.WithoutValid(plugin);
      assert publications == before.Without(plugin).pubs;
      assert byKey == before.Without(plugin).byKey;
      return Ok;
    }

    method DropConsumer(plugin: nat)
      modifies this`publications
      ensures publications.Keys == old(publications).Keys
      ensures forall h :: h in publications ==> publications[h] == old(publications)[h].(consumers := old(publications)[h].consumers - {plugin})
    {
      var todo := publications.Keys;
      while todo != {}
        invariant todo <= publications.Keys == old(publications).Keys
        invariant forall h :: h in todo ==> publications[h] == old(publications)[h]
        invariant forall h :: h in publications && h !in todo ==> publications[h] == old(publications)[h].(consumers := old(publications)[h].consumers - {plugin})
        decreases todo
      {
        var h :| h in todo;
        publications := publications[h := publications[h].(consumers := publications[h].consumers - {plugin})];
        todo := todo - {h};
      }
    }

    method DropProvider(plugin: nat)
      requires Valid()
      modifies this`publications, this`byKey
      ensures forall h :: h in publications <==> h in old(publications) && old(publications)[h].provider != plugin
      ensures forall h :: h in publications ==> publications[h] == old(publications)[h]
      ensures forall k :: k in byKey <==> k in old(byKey) && old(publications)[old(byKey)[k]].provider != plugin
      ensures forall k :: k in byKey ==> byKey[k] == old(byKey)[k]
    {
      var todo := publications.Keys;
      while todo != {}
        invariant todo <= publications.Keys <= old(publications).Keys
        invariant forall h :: h in old(publications) ==> (h in publications <==> h in todo || old(publications)[h].provider != plugin)
        invariant forall h :: h in publications ==> publications[h] == old(publications)[h]
        invariant byKey.Keys <= old(byKey).Keys && forall k :: k in byKey ==> byKey[k] == old(byKey)[k]
        invariant forall k :: k in old(byKey) ==> (k in byKey <==> old(byKey)[k] in publications)
        decreases todo
      {
        var h :| h in todo;
        if publications[h].provider == plugin {
          byKey := byKey - {publications[h].key};
          publications := publications - {h};
        }
        todo := todo - {h};
      }
    }
  }
}
