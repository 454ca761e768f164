/**
 * The app component of App.tsx: the device role taken from the route, the
 * document it renders, and the handlers that change that document. Every
 * local edit goes through `UpdateState`, the single-writer guard: on the
 * editor (the laptop) it applies the updater, saves and broadcasts the
 * result; on a phone it does nothing. Documents from the peer replace the
 * local one on any device.
 */
module App {
  import opened Wrappers
  import opened Ledger
  import opened JsText
  import opened Sync

  datatype DeviceType = Laptop | Android | Iphone

  /**
   * The device type from `location.pathname.slice(1)`: the paths `android`
   * and `iphone` name a phone; every other path, the empty one included, is
   * the laptop, and only the laptop edits.
   */
  function DeviceTypeOf(pathname: string): (t: DeviceType)
    ensures t == Android <==> |pathname| >= 1 && pathname[1..] == "android"
    ensures t == Iphone <==> |pathname| >= 1 && pathname[1..] == "iphone"
    ensures pathname == "/laptop" || pathname == "/" || pathname == "" ==> t == Laptop
  {
    var path := if |pathname| >= 1 then pathname[1..] else "";
    if path == "android" then Android else if path == "iphone" then Iphone else Laptop
  }

  /**
   * handlePair's check: the trimmed input is passed on when it is not
   * empty; an input of nothing but whitespace leads to no action.
   */
  function PairTarget(input: string): (r: Option<string>)
    ensures r.None? <==> forall i :: 0 <= i < |input| ==> IsWhitespace(input[i])
    ensures r.Some? ==> r.value == Trim(input) && r.value != ""
  {
    var t := Trim(input);
    if t != "" then Some(t) else None
  }

  class AppContent {
    const deviceType: DeviceType
    const isEditor: bool
    const sync: SyncService
    /** The document the component renders. */
    var state: DeviceState
    var showPairing: bool

    ghost predicate Valid()
      reads this, sync
    {
      sync.Valid() && isEditor == (deviceType == Laptop)
    }

    /**
     * The first render: the role comes from the route and the document from
     * the store. Loading must not throw, which holds whenever the state key
     * was only ever written by this program.
     */
    constructor (pathname: string, sync: SyncService, today: string)
      requires sync.Valid()
      requires sync.LoadLocalState(today).Success?
      ensures Valid()
      ensures deviceType == DeviceTypeOf(pathname) && isEditor == (deviceType == Laptop)
      ensures this.sync == sync && state == sync.LoadLocalState(today).value && !showPairing
    {
      deviceType := DeviceTypeOf(pathname);
      isEditor := DeviceTypeOf(pathname) == Laptop;
      this.sync := sync;
      state := sync.LoadLocalState(today).value;
      showPairing := false;
    }

    /**
     * The mount effect: subscribes to the sync service with the location
     * hash; the rates fetch is started only on the editor.
     */
    method Mount(hash: string) returns (reconnectScheduled: bool, fetchRates: bool)
      requires Valid()
      modifies sync`hasStateListener, sync`hasStatusListener, sync`timers
      ensures Valid()
      ensures sync.hasStateListener && sync.hasStatusListener
      ensures reconnectScheduled == ShouldReconnect(GetText(sync.store, LaptopHostKey), hash)
      ensures sync.timers
              == old(sync.timers) + (if reconnectScheduled then [GetText(sync.store, LaptopHostKey)] else [])
      ensures fetchRates == isEditor
    {
      reconnectScheduled := sync.Subscribe(hash);
      fetchRates := isEditor;
    }

    /**
     * updateState, the single-writer guard. Off the editor nothing changes
     * and nothing is sent. On the editor the next document is the updater
     * applied to the current one; it is saved and sent to every open
     * connection.
     */
    method UpdateState(updater: DeviceState -> DeviceState)
      requires Valid()
      modifies this`state, sync`store, sync`connections
      ensures Valid()
      ensures !isEditor ==> state == old(state) && sync.store == old(sync.store)
                            && sync.connections == old(sync.connections)
      ensures isEditor ==> && state == updater(old(state))
                           && sync.store == old(sync.store)[StorageKey := Doc(state)]
                           && sync.connections == SendToOpen(old(sync.connections), state)
    {
      if !isEditor {
        return;
      }
      var next := updater(state);
      sync.BroadcastState(next);
      state := next;
    }

    /** handlePair: a non-blank input connects to the trimmed id and closes the pairing dialog. */
    method HandlePair(input: string)
      requires Valid()
      modifies this`showPairing, sync
      ensures Valid()
      ensures PairTarget(input).None? ==> showPairing == old(showPairing) && unchanged(sync)
      ensures PairTarget(input).Some? ==>
                && !showPairing
                && (old(sync.peer).Some? ==>
                      && sync.connections == [Conn(old(sync.nextConnId), Trim(input), false, [])]
                      && sync.store == old(sync.store)[LaptopHostKey := Raw(Trim(input))]
                      && sync.status == if sync.hasStatusListener then "Connecting..." else old(sync.status))
                && (old(sync.peer).None? ==>
                      && sync.connections == old(sync.connections) && sync.store == old(sync.store)
                      && sync.status == old(sync.status))
                && sync.peer == old(sync.peer) && sync.savedId == old(sync.savedId)
                && sync.timers == old(sync.timers)
                && sync.hasStateListener == old(sync.hasStateListener)
                && sync.hasStatusListener == old(sync.hasStatusListener)
    {
      var target := PairTarget(input);
      if target.Some? {
        sync.ConnectToLaptop(target.value);
        showPairing := false;
      }
    }

    /** handleAddOutParty: a new out-party entry under a fresh id, through the guard. */
    method HandleAddOutParty(freshId: string)
      requires Valid()
      modifies this`state, sync`store, sync`connections
      ensures Valid()
      ensures state == if isEditor then AddOutParty(old(state), freshId) else old(state)
      ensures !isEditor ==> sync.store == old(sync.store) && sync.connections == old(sync.connections)
      ensures isEditor ==> && sync.store == old(sync.store)[StorageKey := Doc(state)]
                           && sync.connections == SendToOpen(old(sync.connections), state)
    {
      UpdateState(prev => AddOutParty(prev, freshId));
    }

    /** handleUpdateOutParty: the entry with `id` takes the new amount and method, through the guard. */
    method HandleUpdateOutParty(id: string, amount: int, payMethod: PaymentMethod)
      requires Valid()
      modifies this`state, sync`store, sync`connections
      ensures Valid()
      ensures state == if isEditor then UpdateOutParty(old(state), id, amount, payMethod) else old(state)
      ensures !isEditor ==> sync.store == old(sync.store) && sync.connections == old(sync.connections)
      ensures isEditor ==> && sync.store == old(sync.store)[StorageKey := Doc(state)]
                           && sync.connections == SendToOpen(old(sync.connections), state)
    {
      UpdateState(prev => UpdateOutParty(prev, id, amount, payMethod));
    }

    /** handleAddMainEntry: a new blank main entry under a fresh id, through the guard. */
    method HandleAddMainEntry(freshId: string)
      requires Valid()
      modifies this`state, sync`store, sync`connections
      ensures Valid()
      ensures state == if isEditor then AddMainEntry(old(state), freshId) else old(state)
      ensures !isEditor ==> sync.store == old(sync.store) && sync.connections == old(sync.connections)
      ensures isEditor ==> && sync.store == old(sync.store)[StorageKey := Doc(state)]
                           && sync.connections == SendToOpen(old(sync.connections), state)
    {
      UpdateState(prev => AddMainEntry(prev, freshId));
    }

    /** handleUpdateMainEntry: the entry with `id` is patched, through the guard. */
    method HandleUpdateMainEntry(id: string, updates: MainPatch)
      requires Valid()
      modifies this`state, sync`store, sync`connections
      ensures Valid()
      ensures state == if isEditor then UpdateMainEntry(old(state), id, updates) else old(state)
      ensures !isEditor ==> sync.store == old(sync.store) && sync.connections == old(sync.connections)
      ensures isEditor ==> && sync.store == old(sync.store)[StorageKey := Doc(state)]
                           && sync.connections == SendToOpen(old(sync.connections), state)
    {
      UpdateState(prev => UpdateMainEntry(prev, id, updates));
    }

    /**
     * handleDayEnd: unless the user confirms, nothing happens. The final
     * balance is taken from the rendered document before the update; with
     * events handled one at a time that is the document the updater sees,
     * so the archive carries its own ledger's final balance.
     */
    method HandleDayEnd(confirmed: bool, today: string)
      requires Valid()
      modifies this`state, sync`store, sync`connections
      ensures Valid()
      ensures state == if confirmed && isEditor
                       then DayEnd(old(state), CalculateTotals(old(state).currentData).finalBalance, today)
                       else old(state)
      ensures !(confirmed && isEditor) ==>
                sync.store == old(sync.store) && sync.connections == old(sync.connections)
      ensures confirmed && isEditor ==>
                && sync.store == old(sync.store)[StorageKey := Doc(state)]
                && sync.connections == SendToOpen(old(sync.connections), state)
      ensures confirmed && isEditor && ConsistentHistory(old(state)) ==> ConsistentHistory(state)
    {
      if !confirmed {
        return;
      }
      var finalBalance := CalculateTotals(state.currentData).finalBalance;
      if isEditor && ConsistentHistory(state) {
        DayEndKeepsHistoryConsistent(state, today);
      }
      UpdateState(prev => DayEnd(prev, finalBalance, today));
    }

    /**
     * getRates' completion (started on the editor only): the fetched rates
     * replace the document's rates, and the result is saved and broadcast.
     */
    method RatesArrived(rates: Rates)
      requires Valid() && isEditor
      modifies this`state, sync`store, sync`connections
      ensures Valid()
      ensures state == MergeRates(old(state), rates)
      ensures sync.store == old(sync.store)[StorageKey := Doc(state)]
      ensures sync.connections == SendToOpen(old(sync.connections), state)
    {
      var next := MergeRates(state, rates);
      sync.BroadcastState(next);
      state := next;
    }

    /**
     * Data from a peer, on any device: once the app has subscribed, the
     * received document replaces the rendered one outright (no merge) and is
     * saved; before that, nothing changes.
     */
    method DataReceived(data: DeviceState)
      requires Valid()
      modifies this`state, sync`store
      ensures Valid()
      ensures state == if old(sync.hasStateListener) then data else old(state)
      ensures sync.store == if old(sync.hasStateListener) then old(sync.store)[StorageKey := Doc(data)]
                            else old(sync.store)
    {
      var delivered := sync.OnData(data);
      if delivered {
        state := data;
      }
    }
  }
}
