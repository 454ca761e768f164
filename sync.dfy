/**
 * The device sync service (services/syncService.ts): one peer identity, the
 * live connections, the two listeners the app registers, and the key-value
 * store that persists the document and the identifiers.
 *
 * The transport is abstract. A connection is a record with an identity, the
 * peer at its other end, an `open` flag the transport sets, and `sent`, the
 * documents this device handed to `conn.send`, in order. Each transport event
 * (peer open, incoming connection, data, close, error) and each timer that
 * fires is a method of `SyncService`.
 */
module Sync {
  import opened Wrappers
  import opened Ledger
  import opened JsText

  const StorageKey: string := "shivas_cabanas_state"
  const PairingIdKey: string := "shivas_pairing_id"
  const LaptopHostKey: string := "laptop_host_id"
  /** What `getMyId` answers before the transport has assigned an id. */
  const NotReady: string := "Initializing..."
  /** Delay before the scheduled auto-reconnect, in milliseconds. */
  const ReconnectDelayMs: nat := 2000

  /**
   * A stored string. `Doc(s)` stands for `JSON.stringify(s)` (serialisation is
   * taken to be exact); `Raw(t)` is any other text. Under `StorageKey` a
   * non-empty `Raw` stands for text that is not valid JSON; under the
   * identifier keys it is the identifier as written, whatever it looks like.
   */
  datatype Stored = Raw(text: string) | Doc(state: DeviceState)

  type Store = map<string, Stored>

  datatype Peer = Peer(requested: Option<string>, id: Option<string>)

  datatype Conn = Conn(id: nat, remote: string, open: bool, sent: seq<DeviceState>)

  /** Only the state key ever holds a serialised document. */
  predicate TextKeysHoldText(store: Store) {
    && (PairingIdKey in store ==> store[PairingIdKey].Raw?)
    && (LaptopHostKey in store ==> store[LaptopHostKey].Raw?)
  }

  /** `localStorage.getItem(key)` for a text key: `None` is `null`. */
  function GetText(store: Store, key: string): (r: Option<string>)
    ensures r.Some? ==> key in store && store[key] == Raw(r.value)
    ensures key in store && store[key].Raw? ==> r == Some(store[key].text)
    ensures key !in store ==> r.None?
  {
    if key in store && store[key].Raw? then Some(store[key].text) else None
  }

  /** JavaScript truthiness of a string-or-null: present and non-empty. */
  predicate Truthy(v: Option<string>) {
    v.Some? && v.value != ""
  }

  /** `String(v)`: how `localStorage.setItem` stores a `null` argument. */
  function JsString(v: Option<string>): (r: string)
    ensures v.Some? ==> r == v.value
    ensures v.None? ==> r == "null"
  {
    if v.Some? then v.value else "null"
  }

  /**
   * loadLocalState: the stored document when there is one; the empty
   * document dated `today` when the key is absent or holds the empty string
   * (the two falsy values); otherwise a failure, because `JSON.parse` of
   * text that is not valid JSON throws and is not caught.
   */
  function LoadFrom(store: Store, today: string): (r: Result<DeviceState>)
    ensures StorageKey in store && store[StorageKey].Doc? ==> r == Success(store[StorageKey].state)
    ensures StorageKey !in store || store[StorageKey] == Raw("") ==> r == Success(DefaultState(today))
    ensures r.Failure? <==> StorageKey in store && store[StorageKey].Raw? && store[StorageKey].text != ""
  {
    if StorageKey !in store then Success(DefaultState(today))
    else match store[StorageKey]
      case Doc(s) => Success(s)
      case Raw(t) => if t == "" then Success(DefaultState(today)) else Failure("JSON.parse: not a stored document")
  }

  /** What was saved is what is loaded, whatever the date and whatever was there before. */
  lemma SaveThenLoad(store: Store, s: DeviceState, today: string)
    ensures LoadFrom(store[StorageKey := Doc(s)], today) == Success(s)
  {
  }

  /** The status text for `n` live connections: the count in decimal, in brackets. */
  function ConnectedStatus(n: nat): (r: string)
    ensures |r| > 12 && r[..11] == "Connected (" && r[|r| - 1] == ')'
    ensures forall i :: 11 <= i < |r| - 1 ==> '0' <= r[i] <= '9'
    ensures DigitsValue(r[11..|r| - 1]) == n
    ensures r[11] == '0' ==> n == 0 && |r| == 13
    ensures r != "Ready"
  {
    "Connected (" + Decimal(n) + ")"
  }

  /** The status text after a close: the count, or "Ready" once no connection is left. */
  function StatusAfterClose(cs: seq<Conn>): (r: string)
    ensures r == "Ready" <==> cs == []
    ensures cs != [] ==> r == ConnectedStatus(|cs|)
  {
    if |cs| > 0 then ConnectedStatus(|cs|) else "Ready"
  }

  /** Connection identities are distinct. */
  predicate DistinctConnIds(cs: seq<Conn>) {
    forall i, j :: 0 <= i < j < |cs| ==> cs[i].id != cs[j].id
  }

  /**
   * The `forEach` of broadcastState: every open connection is sent `s` once
   * more; closed ones are left as they are and stay in the list.
   */
  function SendToOpen(cs: seq<Conn>, s: DeviceState): (r: seq<Conn>)
    ensures |r| == |cs|
    ensures forall i :: 0 <= i < |cs| ==>
              r[i].id == cs[i].id && r[i].remote == cs[i].remote && r[i].open == cs[i].open
    ensures forall i :: 0 <= i < |cs| && cs[i].open ==> r[i].sent == cs[i].sent + [s]
    ensures forall i :: 0 <= i < |cs| && !cs[i].open ==> r[i] == cs[i]
  {
    if cs == [] then []
    else
      var c := cs[|cs| - 1];
      SendToOpen(cs[..|cs| - 1], s) + [if c.open then c.(sent := c.sent + [s]) else c]
  }

  /** `filter(c => c !== conn)`: the connections other than `cid`, in their order. */
  function Without(cs: seq<Conn>, cid: nat): (r: seq<Conn>)
    ensures |r| <= |cs|
    ensures forall i :: 0 <= i < |r| ==> r[i].id != cid
  {
    if cs == [] then []
    else
      var c := cs[|cs| - 1];
      var r := Without(cs[..|cs| - 1], cid);
      if c.id == cid then r else r + [c]
  }

  /**
   * The filter keeps exactly the connections whose id differs from `cid`,
   * and keeps identities distinct.
   */
  lemma {:induction false} WithoutMembers(cs: seq<Conn>, cid: nat)
    ensures forall c :: c in Without(cs, cid) <==> c in cs && c.id != cid
    ensures DistinctConnIds(cs) ==> DistinctConnIds(Without(cs, cid))
    decreases |cs|
  {
    if cs != [] {
      var init, c := cs[..|cs| - 1], cs[|cs| - 1];
      assert forall x :: x in cs <==> x in init || x == c;
      WithoutMembers(init, cid);
      var r := Without(init, cid);
      if c.id != cid {
        assert Without(cs, cid) == r + [c];
        if DistinctConnIds(cs) {
          assert DistinctConnIds(init) by {
            forall i, j | 0 <= i < j < |init| ensures init[i].id != init[j].id {
              assert init[i] == cs[i] && init[j] == cs[j];
            }
          }
          forall x | x in r ensures x.id != c.id {
            var k :| 0 <= k < |init| && init[k] == x;
            assert cs[k] == x;
          }
          forall i, j | 0 <= i < j < |r + [c]| ensures (r + [c])[i].id != (r + [c])[j].id {
            if j == |r| {
              assert (r + [c])[i] == r[i];
              assert r[i] in r;
            } else {
              assert (r + [c])[i] == r[i] && (r + [c])[j] == r[j];
            }
          }
        }
      }
    }
  }

  /**
   * Closing one connection of a list with distinct identities removes that
   * one connection and keeps the others in their original order.
   */
  lemma {:induction false} WithoutRemovesOne(cs: seq<Conn>, k: nat)
    requires DistinctConnIds(cs) && k < |cs|
    ensures Without(cs, cs[k].id) == cs[..k] + cs[k + 1..]
    decreases |cs|
  {
    var init := cs[..|cs| - 1];
    if k == |cs| - 1 {
      WithoutAbsent(init, cs[k].id);
      assert cs[..k] + cs[k + 1..] == init;
    } else {
      assert init[k] == cs[k];
      WithoutRemovesOne(init, k);
      assert init[..k] == cs[..k];
      assert init[k + 1..] + [cs[|cs| - 1]] == cs[k + 1..];
    }
  }

  /** Closing a connection that is not in the list changes nothing. */
  lemma {:induction false} WithoutAbsent(cs: seq<Conn>, cid: nat)
    requires forall i :: 0 <= i < |cs| ==> cs[i].id != cid
    ensures Without(cs, cid) == cs
  {
    if cs != [] {
      var init, c := cs[..|cs| - 1], cs[|cs| - 1];
      assert forall i :: 0 <= i < |init| ==> init[i] == cs[i];
      WithoutAbsent(init, cid);
      assert c.id != cid;
      assert Without(cs, cid) == Without(init, cid) + [c];
      assert init + [c] == cs;
    }
  }

  /** The transport reports connection `cid` usable: its `open` flag is set. */
  function MarkOpen(cs: seq<Conn>, cid: nat): (r: seq<Conn>)
    ensures |r| == |cs|
    ensures forall i :: 0 <= i < |cs| && cs[i].id == cid ==> r[i] == cs[i].(open := true)
    ensures forall i :: 0 <= i < |cs| && cs[i].id != cid ==> r[i] == cs[i]
  {
    seq(|cs|, i requires 0 <= i < |cs| => if cs[i].id == cid then cs[i].(open := true) else cs[i])
  }

  /**
   * The auto-reconnect test of `subscribe`, with JavaScript precedence:
   * `(hostId && hash.includes('mobile')) || hash.includes('android') || hash.includes('iphone')`.
   */
  predicate ShouldReconnect(hostId: Option<string>, hash: string) {
    (Truthy(hostId) && Contains(hash, "mobile")) || Contains(hash, "android") || Contains(hash, "iphone")
  }

  /** A hash with none of the letters `m`, `n`, `i` never schedules a reconnect. */
  lemma NoRouteLetterNoReconnect(hostId: Option<string>, hash: string)
    requires 'm' !in hash && 'n' !in hash && 'i' !in hash
    ensures !ShouldReconnect(hostId, hash)
  {
    MissingLetterExcludes(hash, "mobile", 'm');
    MissingLetterExcludes(hash, "android", 'n');
    MissingLetterExcludes(hash, "iphone", 'i');
  }

  /** The editor's route never schedules a reconnect, paired or not. */
  lemma LaptopRouteNeverReconnects(hostId: Option<string>)
    ensures !ShouldReconnect(hostId, "#/laptop")
  {
    NoRouteLetterNoReconnect(hostId, "#/laptop");
  }

  /**
   * Because `&&` binds tighter than `||`, a phone route schedules the
   * reconnect even when no laptop id was ever stored; only the `mobile`
   * test depends on a stored id.
   */
  lemma PhoneRoutesReconnectUnpaired()
    ensures ShouldReconnect(None, "#/android") && ShouldReconnect(None, "#/iphone")
  {
  }

  /** Away from the phone words, a reconnect needs a stored id and a `mobile` route. */
  lemma MobileRouteNeedsHost(hostId: Option<string>, hash: string)
    requires !Contains(hash, "android") && !Contains(hash, "iphone")
    ensures ShouldReconnect(hostId, hash) <==> Truthy(hostId) && Contains(hash, "mobile")
  {
  }

  class SyncService {
    /** localStorage. */
    var store: Store
    var peer: Option<Peer>
    /** The pairing id `initPeer` read, when truthy; the `open` handler consults this captured value. */
    var savedId: Option<string>
    var connections: seq<Conn>
    /** Allocator of connection identities (object identity in the source). */
    var nextConnId: nat
    var hasStateListener: bool
    var hasStatusListener: bool
    /** The last status handed to the status listener (the app starts at "Initializing..."). */
    var status: string
    /** Scheduled auto-reconnects, oldest first, each with the host value it will pass. */
    var timers: seq<Option<string>>

    ghost predicate Valid()
      reads this
    {
      && TextKeysHoldText(store)
      && (savedId.Some? ==> savedId.value != "" && PairingIdKey in store && store[PairingIdKey] == Raw(savedId.value))
      && (peer.Some? ==> peer.value.requested == savedId)
      && DistinctConnIds(connections)
      && (forall i :: 0 <= i < |connections| ==> connections[i].id < nextConnId)
    }

    /**
     * The constructor and initPeer: a truthy stored pairing id is requested
     * as this peer's id; otherwise the transport will pick one.
     */
    constructor (initial: Store)
      requires TextKeysHoldText(initial)
      ensures Valid()
      ensures store == initial
      ensures savedId == (if Truthy(GetText(initial, PairingIdKey)) then GetText(initial, PairingIdKey) else None)
      ensures peer == Some(Peer(savedId, None))
      ensures connections == [] && timers == []
      ensures !hasStateListener && !hasStatusListener && status == NotReady
    {
      store := initial;
      var saved := GetText(initial, PairingIdKey);
      savedId := if Truthy(saved) then saved else None;
      peer := Some(Peer(savedId, None));
      connections := [];
      nextConnId := 0;
      hasStateListener, hasStatusListener := false, false;
      status := NotReady;
      timers := [];
    }

    /** `this.onStatusUpdate?.(s)`. */
    method Report(s: string)
      modifies this`status
      ensures status == if hasStatusListener then s else old(status)
    {
      if hasStatusListener {
        status := s;
      }
    }

    /** getMyId: the assigned id when it is truthy, else the placeholder. */
    function GetMyId(): (r: string)
      reads this
      ensures r != ""
      ensures peer.Some? && Truthy(peer.value.id) ==> r == peer.value.id.value
      ensures !(peer.Some? && Truthy(peer.value.id)) ==> r == NotReady
    {
      if peer.Some? && Truthy(peer.value.id) then peer.value.id.value else NotReady
    }

    /**
     * The peer's `open` event. The transport grants the requested id when one
     * was requested. The id is persisted only when none was saved, so a saved
     * id is never overwritten; afterwards the stored pairing id and `getMyId`
     * both give `id`.
     */
    method OnPeerOpen(id: string)
      requires Valid() && peer.Some? && id != ""
      requires peer.value.requested.Some? ==> id == peer.value.requested.value
      modifies this
      ensures Valid()
      ensures peer == Some(old(peer).value.(id := Some(id)))
      ensures store == if savedId.Some? then old(store) else old(store)[PairingIdKey := Raw(id)]
      ensures GetText(store, PairingIdKey) == Some(id) && GetMyId() == id
      ensures status == if hasStatusListener then "Ready" else old(status)
      ensures savedId == old(savedId) && connections == old(connections) && nextConnId == old(nextConnId)
      ensures hasStateListener == old(hasStateListener) && hasStatusListener == old(hasStatusListener)
      ensures timers == old(timers)
    {
      peer := Some(peer.value.(id := Some(id)));
      if savedId.None? {
        store := store[PairingIdKey := Raw(id)];
      }
      Report("Ready");
    }

    /**
     * The peer's `connection` event: the new connection goes to the end of
     * the list, the status shows the new count, and the connection is sent
     * the stored document (nothing, if loading it throws).
     */
    method OnConnection(remote: string, today: string) returns (cid: nat)
      requires Valid()
      modifies this
      ensures Valid()
      ensures cid == old(nextConnId) && nextConnId == cid + 1
      ensures connections == old(connections) + [Conn(cid, remote, false,
                match LoadFrom(old(store), today) case Success(s) => [s] case Failure(_) => [])]
      ensures status == if hasStatusListener then ConnectedStatus(|connections|) else old(status)
      ensures store == old(store) && peer == old(peer) && savedId == old(savedId)
      ensures hasStateListener == old(hasStateListener) && hasStatusListener == old(hasStatusListener)
      ensures timers == old(timers)
    {
      cid := nextConnId;
      nextConnId := nextConnId + 1;
      connections := connections + [Conn(cid, remote, false, [])];
      Report(ConnectedStatus(|connections|));
      var loaded := LoadLocalState(today);
      if loaded.Success? {
        var last := |connections| - 1;
        connections := connections[last := connections[last].(sent := [loaded.value])];
      }
    }

    /** The transport marks connection `cid` open. */
    method OnConnOpen(cid: nat)
      requires Valid()
      modifies this`connections
      ensures Valid()
      ensures connections == MarkOpen(old(connections), cid)
    {
      connections := MarkOpen(connections, cid);
    }

    /**
     * A connection's `data` event: with a state listener the received
     * document is delivered (`delivered`) and saved; without one, nothing
     * changes.
     */
    method OnData(data: DeviceState) returns (delivered: bool)
      requires Valid()
      modifies this`store
      ensures Valid()
      ensures delivered == hasStateListener
      ensures store == if delivered then old(store)[StorageKey := Doc(data)] else old(store)
    {
      delivered := hasStateListener;
      if delivered {
        SaveLocalState(data);
      }
    }

    /**
     * A connection's `close` event: exactly that connection leaves the list,
     * the rest keep their order, and the status is the new count or "Ready".
     */
    method OnClose(cid: nat)
      requires Valid()
      modifies this`connections, this`status
      ensures Valid()
      ensures connections == Without(old(connections), cid)
      ensures status == if hasStatusListener then StatusAfterClose(connections) else old(status)
    {
      WithoutMembers(connections, cid);
      connections := Without(connections, cid);
      Report(StatusAfterClose(connections));
    }

    /** The peer's `error` event. */
    method OnPeerError(errType: string)
      modifies this`status
      ensures status == if hasStatusListener then "Error: " + errType else old(status)
    {
      Report("Error: " + errType);
    }

    /**
     * connectToLaptop: without a peer, nothing happens. Otherwise the whole
     * list is replaced by the one new connection to `laptopId`, the id is
     * stored as the laptop host, and the status becomes "Connecting...".
     */
    method ConnectToLaptop(laptopId: string)
      requires Valid()
      modifies this
      ensures Valid()
      ensures old(peer).None? ==> connections == old(connections) && store == old(store) && status == old(status)
      ensures old(peer).Some? ==>
                && connections == [Conn(old(nextConnId), laptopId, false, [])]
                && store == old(store)[LaptopHostKey := Raw(laptopId)]
                && status == (if hasStatusListener then "Connecting..." else old(status))
      ensures peer == old(peer) && savedId == old(savedId) && timers == old(timers)
      ensures hasStateListener == old(hasStateListener) && hasStatusListener == old(hasStatusListener)
    {
      if peer.None? {
        return;
      }
      var conn := Conn(nextConnId, laptopId, false, []);
      nextConnId := nextConnId + 1;
      connections := [conn];
      store := store[LaptopHostKey := Raw(laptopId)];
      Report("Connecting...");
    }

    /**
     * broadcastState: the document is saved first, then sent to every open
     * connection and to no other; the list itself keeps its members and order.
     */
    method BroadcastState(state: DeviceState)
      requires Valid()
      modifies this`store, this`connections
      ensures Valid()
      ensures store == old(store)[StorageKey := Doc(state)]
      ensures connections == SendToOpen(old(connections), state)
    {
      SaveLocalState(state);
      var cs := connections;
      var i := 0;
      while i < |cs|
        invariant 0 <= i <= |cs| == |connections|
        invariant forall k :: 0 <= k < |cs| ==>
                    cs[k].id == connections[k].id && cs[k].remote == connections[k].remote
                    && cs[k].open == connections[k].open
        invariant forall k :: 0 <= k < i && connections[k].open ==> cs[k].sent == connections[k].sent + [state]
        invariant forall k :: 0 <= k < i && !connections[k].open ==> cs[k] == connections[k]
        invariant forall k :: i <= k < |cs| ==> cs[k] == connections[k]
      {
        if cs[i].open {
          cs := cs[i := cs[i].(sent := cs[i].sent + [state])];
        }
        i := i + 1;
      }
      assert cs == SendToOpen(connections, state);
      connections := cs;
    }

    /** saveLocalState: write-through of the whole document under the state key. */
    method SaveLocalState(state: DeviceState)
      requires Valid()
      modifies this`store
      ensures Valid()
      ensures store == old(store)[StorageKey := Doc(state)]
      ensures forall today :: LoadLocalState(today) == Success(state)
    {
      store := store[StorageKey := Doc(state)];
    }

    /** loadLocalState, for the date `today` the default document would carry. */
    function LoadLocalState(today: string): (r: Result<DeviceState>)
      reads this
      ensures r == LoadFrom(store, today)
      ensures StorageKey !in store ==> r == Success(DefaultState(today))
    {
      LoadFrom(store, today)
    }

    /**
     * subscribe: registers both listeners and schedules one auto-reconnect,
     * passing the stored laptop host value, exactly when `ShouldReconnect`
     * holds of that value and the location hash.
     */
    method Subscribe(hash: string) returns (scheduled: bool)
      requires Valid()
      modifies this`hasStateListener, this`hasStatusListener, this`timers
      ensures Valid()
      ensures hasStateListener && hasStatusListener
      ensures scheduled == ShouldReconnect(GetText(store, LaptopHostKey), hash)
      ensures timers == old(timers) + (if scheduled then [GetText(store, LaptopHostKey)] else [])
    {
      hasStateListener := true;
      hasStatusListener := true;
      var hostId := GetText(store, LaptopHostKey);
      scheduled := ShouldReconnect(hostId, hash);
      if scheduled {
        timers := timers + [hostId];
      }
    }

    /**
     * The oldest scheduled reconnect fires after its delay and calls
     * connectToLaptop with the value it captured (`null` becomes "null").
     */
    method ReconnectTimerFires()
      requires Valid() && timers != []
      modifies this
      ensures Valid()
      ensures timers == old(timers)[1..]
      ensures old(peer).Some? ==>
                && connections == [Conn(old(nextConnId), JsString(old(timers)[0]), false, [])]
                && store == old(store)[LaptopHostKey := Raw(JsString(old(timers)[0]))]
      ensures old(peer).None? ==> connections == old(connections) && store == old(store)
      ensures status == if old(peer).Some? && hasStatusListener then "Connecting..." else old(status)
      ensures peer == old(peer) && savedId == old(savedId)
      ensures hasStateListener == old(hasStateListener) && hasStatusListener == old(hasStatusListener)
    {
      var host := timers[0];
      timers := timers[1..];
      ConnectToLaptop(JsString(host));
    }
  }
}
