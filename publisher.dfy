/**
 * Publication of the identity record over multicast DNS service discovery:
 * one discovery context per local IPv4 address, one `_vxi-11._tcp`
 * advertisement per context, and the teardown that unregisters and closes
 * every context. The discovery library is outside the model: a context is
 * an opaque handle, and every call into the library is appended to an event
 * trace so that the order of calls can be stated.
 */
module Publisher {
  import opened PyString
  import opened Identity

  const ServiceType := "_vxi-11._tcp.local."

  /** The SCPI raw-socket port the advertisement points at. */
  const ServicePort := 5025

  /** A discovery context, as handed out by the library. */
  datatype Handle = Handle(number: nat)

  /** What one advertisement carries; `server` is the advertised host name. */
  datatype ServiceInfo = ServiceInfo(
    serviceType: string,
    name: string,
    address: string,
    port: nat,
    weight: nat,
    priority: nat,
    properties: map<Key, string>,
    server: string)

  /** One call into the discovery library. */
  datatype Event =
    | Opened(handle: Handle, address: string)
    | Registered(handle: Handle, info: ServiceInfo, allowNameChange: bool)
    | UnregisteredAll(handle: Handle)
    | Closed(handle: Handle)

  /** The outcome of publishing a record. */
  datatype Status = Published | MissingKey(key: Key)

  /** An instrument address that means "this host". */
  predicate IsLoopbackName(ip: string)
  {
    ip == "localhost" || ip == "127.0.0.1"
  }

  /**
   * The advertised host name: the model's family (its text before the first
   * `-`), a `-`, the serial number and the `.local.` domain.
   */
  function Fqdn(instr: string, serialNumber: string): (name: string)
    ensures var family := Split(instr, '-')[0];
      && '-' !in family
      && |family| <= |instr|
      && instr[..|family|] == family
      && (|family| < |instr| ==> instr[|family|] == '-')
      && name == family + "-" + serialNumber + ".local."
  {
    var parts := Split(instr, '-');
    JoinSplit(instr, '-');
    FirstFieldIsPrefix(parts, '-');
    parts[0] + "-" + serialNumber + ".local."
  }

  /** The first field of a join is where the joined string starts. */
  lemma FirstFieldIsPrefix(parts: seq<string>, sep: char)
    requires |parts| >= 1
    ensures var s := Join(parts, sep);
      && |parts[0]| <= |s|
      && s[..|parts[0]|] == parts[0]
      && (|parts| > 1 ==> |parts[0]| < |s| && s[|parts[0]|] == sep)
  {
  }

  /** The service instance name: vendor, model and serial, then the type. */
  function ServiceName(manufacturer: string, instr: string, serialNumber: string): (name: string)
    ensures |name| > |ServiceType| + 1
    ensures name[|name| - |ServiceType|..] == ServiceType && name[|name| - |ServiceType| - 1] == '.'
    ensures name[..|name| - |ServiceType| - 1] == manufacturer + " " + instr + " #" + serialNumber
  {
    manufacturer + " " + instr + " #" + serialNumber + "." + ServiceType
  }

  /**
   * The advertisement registered through the context bound to `ifaceAddr`.
   * It points at the instrument's own address unless that is a loopback
   * name, in which case it points at the interface address and the record's
   * `ip` in the advertised properties is that address too. Nothing else in
   * the properties differs from the record.
   */
  function Advertisement(idn: Identity, name: string, fqdn: string, ifaceAddr: string): (info: ServiceInfo)
    ensures info.address == (if IsLoopbackName(idn.ip) then ifaceAddr else idn.ip)
    ensures IpKey in info.properties && info.properties[IpKey] == info.address
    ensures info.properties == Properties(idn)[IpKey := info.address]
    ensures info.serviceType == ServiceType && info.name == name && info.server == fqdn
    ensures info.port == ServicePort && info.weight == 0 && info.priority == 0
  {
    var address := if IsLoopbackName(idn.ip) then ifaceAddr else idn.ip;
    ServiceInfo(ServiceType, name, address, ServicePort, 0, 0,
                Properties(idn.(ip := address)), fqdn)
  }

  /** The registrations made for `contexts`, in list order. */
  function RegistrationEvents(contexts: seq<(string, Handle)>, idn: Identity, name: string, fqdn: string): seq<Event>
  {
    if contexts == [] then []
    else
      var last := contexts[|contexts| - 1];
      RegistrationEvents(contexts[..|contexts| - 1], idn, name, fqdn)
        + [Registered(last.1, Advertisement(idn, name, fqdn, last.0), false)]
  }

  /** Registering through one more context appends its registration. */
  lemma RegistrationStep(contexts: seq<(string, Handle)>, i: nat, idn: Identity, name: string, fqdn: string)
    requires i < |contexts|
    ensures RegistrationEvents(contexts[..i + 1], idn, name, fqdn)
      == RegistrationEvents(contexts[..i], idn, name, fqdn)
         + [Registered(contexts[i].1, Advertisement(idn, name, fqdn, contexts[i].0), false)]
  {
    assert contexts[..i + 1][..i] == contexts[..i];
  }

  /**
   * Every context gets exactly one registration, in list order, with the
   * advertisement for its own address and renaming on collision refused.
   */
  lemma {:induction false} RegistrationAt(contexts: seq<(string, Handle)>, idn: Identity, name: string, fqdn: string, k: nat)
    requires k < |contexts|
    ensures var events := RegistrationEvents(contexts, idn, name, fqdn);
      && |events| == |contexts|
      && events[k] == Registered(contexts[k].1, Advertisement(idn, name, fqdn, contexts[k].0), false)
  {
    var n := |contexts| - 1;
    RegistrationCount(contexts[..n], idn, name, fqdn);
    if k < n {
      RegistrationAt(contexts[..n], idn, name, fqdn, k);
    }
  }

  lemma {:induction false} RegistrationCount(contexts: seq<(string, Handle)>, idn: Identity, name: string, fqdn: string)
    ensures |RegistrationEvents(contexts, idn, name, fqdn)| == |contexts|
  {
    if contexts != [] {
      RegistrationCount(contexts[..|contexts| - 1], idn, name, fqdn);
    }
  }

  /** The teardown calls for `contexts`: unregister all, then close, per context. */
  function TeardownEvents(contexts: seq<(string, Handle)>): seq<Event>
  {
    if contexts == [] then []
    else
      var h := contexts[|contexts| - 1].1;
      TeardownEvents(contexts[..|contexts| - 1]) + [UnregisteredAll(h), Closed(h)]
  }

  /** Tearing down one more context appends its two calls. */
  lemma TeardownStep(contexts: seq<(string, Handle)>, i: nat)
    requires i < |contexts|
    ensures TeardownEvents(contexts[..i + 1])
      == TeardownEvents(contexts[..i]) + [UnregisteredAll(contexts[i].1), Closed(contexts[i].1)]
  {
    assert contexts[..i + 1][..i] == contexts[..i];
  }

  /**
   * Teardown makes two calls per context, in list order: the `k`-th context
   * is first unregistered and then closed.
   */
  lemma {:induction false} TeardownAt(contexts: seq<(string, Handle)>, k: nat)
    requires k < |contexts|
    ensures var events := TeardownEvents(contexts);
      && |events| == 2 * |contexts|
      && events[2 * k] == UnregisteredAll(contexts[k].1)
      && events[2 * k + 1] == Closed(contexts[k].1)
  {
    var n := |contexts| - 1;
    TeardownCount(contexts[..n]);
    if k < n {
      TeardownAt(contexts[..n], k);
    }
  }

  lemma {:induction false} TeardownCount(contexts: seq<(string, Handle)>)
    ensures |TeardownEvents(contexts)| == 2 * |contexts|
  {
    if contexts != [] {
      TeardownCount(contexts[..|contexts| - 1]);
    }
  }

  /** The handles of a context list. */
  function Handles(contexts: seq<(string, Handle)>): (hs: multiset<Handle>)
    ensures |hs| == |contexts|
  {
    if contexts == [] then multiset{}
    else Handles(contexts[..|contexts| - 1]) + multiset{contexts[|contexts| - 1].1}
  }

  /**
   * Teardown closes each listed context as many times as it is listed, and
   * nothing else: with distinct handles, every context is closed exactly once.
   */
  lemma {:induction false} TeardownClosesEach(contexts: seq<(string, Handle)>, h: Handle)
    ensures multiset(TeardownEvents(contexts))[Closed(h)] == Handles(contexts)[h]
    ensures multiset(TeardownEvents(contexts))[UnregisteredAll(h)] == Handles(contexts)[h]
  {
    if contexts != [] {
      TeardownClosesEach(contexts[..|contexts| - 1], h);
    }
  }

  /** In a list whose handles are distinct, each handle occurs once. */
  lemma {:induction false} DistinctHandlesOnce(contexts: seq<(string, Handle)>, next: nat, h: Handle)
    requires HandlesFresh(contexts, next)
    ensures Handles(contexts)[h] <= 1
    ensures Handles(contexts)[h] == 1 <==> exists k :: 0 <= k < |contexts| && contexts[k].1 == h
  {
    if contexts != [] {
      var n := |contexts| - 1;
      DistinctHandlesOnce(contexts[..n], next, h);
    }
  }

  /** The contexts created for `addrs`, handles numbered from `first`. */
  function NewContexts(addrs: seq<string>, first: nat): (contexts: seq<(string, Handle)>)
  {
    seq(|addrs|, k requires 0 <= k < |addrs| => (addrs[k], Handle(first + k)))
  }

  /** The library calls that create the contexts in `contexts`. */
  function OpenEvents(contexts: seq<(string, Handle)>): seq<Event>
  {
    seq(|contexts|, k requires 0 <= k < |contexts| => Opened(contexts[k].1, contexts[k].0))
  }

  /** Distinct handles, all below the next one to be handed out. */
  predicate HandlesFresh(contexts: seq<(string, Handle)>, next: nat)
  {
    && (forall k :: 0 <= k < |contexts| ==> contexts[k].1.number < next)
    && (forall j, k :: 0 <= j < k < |contexts| ==> contexts[j].1 != contexts[k].1)
  }

  /** The identity dictionary, updated in place while it is published. */
  class IdnRecord {
    var identity: Identity

    constructor (identity: Identity)
      ensures this.identity == identity
    {
      this.identity := identity;
    }
  }

  /**
   * The process-wide list of (address, context) pairs, with the trace of
   * the calls made into the discovery library.
   */
  class ZeroconfPublisher {
    var contexts: seq<(string, Handle)>
    var nextHandle: nat
    ghost var events: seq<Event>

    ghost predicate Valid()
      reads this
    {
      HandlesFresh(contexts, nextHandle)
    }

    constructor ()
      ensures Valid() && contexts == [] && events == []
    {
      contexts := [];
      nextHandle := 0;
      events := [];
    }

    /**
     * One context per enumerated address, appended in enumeration order,
     * each bound to exactly that address.
     */
    method Init(addrs: seq<string>)
      requires Valid()
      modifies this
      ensures Valid()
      ensures nextHandle == old(nextHandle) + |addrs|
      ensures contexts == old(contexts) + NewContexts(addrs, old(nextHandle))
      ensures events == old(events) + OpenEvents(NewContexts(addrs, old(nextHandle)))
    {
      ghost var first := nextHandle;
      for i := 0 to |addrs|
        invariant nextHandle == first + i
        invariant contexts == old(contexts) + NewContexts(addrs[..i], first)
        invariant events == old(events) + OpenEvents(NewContexts(addrs[..i], first))
        invariant Valid()
      {
        var zc := Handle(nextHandle);
        contexts := contexts + [(addrs[i], zc)];
        events := events + [Opened(zc, addrs[i])];
        nextHandle := nextHandle + 1;
        assert NewContexts(addrs[..i + 1], first) == NewContexts(addrs[..i], first) + [(addrs[i], zc)];
      }
      assert addrs[..|addrs|] == addrs;
    }

    /**
     * Publishes the record through every context. A record without a serial
     * number fails before anything changes. Otherwise the record gains its
     * `fqdn` and nothing else, every context registers one advertisement in
     * list order, and `ip` is back to its original value after each of them.
     */
    method Register(rec: IdnRecord) returns (status: Status)
      requires Valid()
      modifies this`events, rec
      ensures Valid()
      ensures old(rec.identity).vendor.Generic? ==>
        && status == MissingKey(SerialNumberKey)
        && rec.identity == old(rec.identity)
        && events == old(events)
      ensures old(rec.identity).vendor.RohdeSchwarz? ==>
        var idn := old(rec.identity);
        var sn := idn.vendor.serialNumber;
        var fqdn := Fqdn(idn.instr, sn);
        && status == Published
        && rec.identity == idn.(fqdn := Some(fqdn))
        && events == old(events) + RegistrationEvents(contexts, rec.identity,
                                       ServiceName(idn.manufacturer, idn.instr, sn), fqdn)
    {
      if rec.identity.vendor.Generic? {
        return MissingKey(SerialNumberKey);
      }
      var sn := rec.identity.vendor.serialNumber;
      var fqdn := Fqdn(rec.identity.instr, sn);
      rec.identity := rec.identity.(fqdn := Some(fqdn));
      var name := ServiceName(rec.identity.manufacturer, rec.identity.instr, sn);
      ghost var published := rec.identity;
      for i := 0 to |contexts|
        invariant rec.identity == published
        invariant events == old(events) + RegistrationEvents(contexts[..i], published, name, fqdn)
      {
        var (addr, zc) := contexts[i];
        var origIp := rec.identity.ip;
        if !IsLoopbackName(rec.identity.ip) {
          addr := rec.identity.ip;
        } else {
          rec.identity := rec.identity.(ip := addr);
        }
        var info := ServiceInfo(ServiceType, name, addr, ServicePort, 0, 0,
                                Properties(rec.identity), fqdn);
        assert info == Advertisement(published, name, fqdn, contexts[i].0);
        events := events + [Registered(zc, info, false)];
        rec.identity := rec.identity.(ip := origIp);
        RegistrationStep(contexts, i, published, name, fqdn);
      }
      assert contexts[..|contexts|] == contexts;
      return Published;
    }

    /** Unregisters everything and then closes each context, in list order. */
    method Teardown()
      requires Valid()
      modifies this`events
      ensures Valid()
      ensures events == old(events) + TeardownEvents(contexts)
    {
      for i := 0 to |contexts|
        invariant events == old(events) + TeardownEvents(contexts[..i])
      {
        var zc := contexts[i].1;
        events := events + [UnregisteredAll(zc)];
        events := events + [Closed(zc)];
        TeardownStep(contexts, i);
      }
      assert contexts[..|contexts|] == contexts;
    }
  }
}
