/**
 * The staff area's layout (fend/src/layouts/StaffLayout.jsx): on mount it
 * fetches the inventory settings once and, unless it has been unmounted by
 * then, records whether staff may receive inventory and that the fetch has
 * settled; the side menu shows the Inventory entry only when both hold. The
 * layout also owns the logout action.
 */
module Staff {
  import opened Wrappers
  import opened Js

  /** A side-menu link: its route and its title. */
  datatype MenuEntry = MenuEntry(path: string, title: string)

  const Dashboard := MenuEntry("/staff", "Dashboard")
  const Appointments := MenuEntry("/staff/appointments", "Appointments")
  const Reminders := MenuEntry("/staff/appointment-reminders", "Reminders")
  const Inventory := MenuEntry("/staff/inventory", "Inventory")
  const Account := MenuEntry("/staff/profile", "Account")

  /** The localStorage key holding the session token. */
  const TokenKey := "token"

  /** The side menu: four fixed entries, and Inventory between Reminders and
      Account exactly when the settings fetch settled and granted it. */
  function Menu(loaded: bool, allowInventory: bool): (entries: seq<MenuEntry>)
    ensures |entries| == if loaded && allowInventory then 5 else 4
    ensures entries[..3] == [Dashboard, Appointments, Reminders]
    ensures entries[|entries| - 1] == Account
    ensures Inventory in entries <==> loaded && allowInventory
    ensures Inventory in entries ==> entries[3] == Inventory
  {
    [Dashboard, Appointments, Reminders] + (if loaded && allowInventory then [Inventory] else []) + [Account]
  }

  /** `!!data?.staff_can_receive` on the settings response body. */
  predicate Entitled(data: Value) {
    Truthy(OptGet(data, "staff_can_receive"))
  }

  /** The layout's three flags: the effect's `mounted` and the two state
      variables. */
  datatype Flags = Flags(mounted: bool, loaded: bool, allowInventory: bool)

  /** The flags right after mount, before the settings fetch settles. */
  const Mounted := Flags(true, false, false)

  /** The three things that can happen to a mounted layout: the settings
      fetch resolves with a body (the `data` destructured from the response),
      or rejects, or the effect is cleaned up. */
  datatype Event = FetchSucceeded(data: Value) | FetchFailed | Unmounted

  predicate IsSettlement(e: Event) {
    e.FetchSucceeded? || e.FetchFailed?
  }

  /** Whether the Inventory entry is in the menu. */
  predicate Shown(s: Flags) {
    s.loaded && s.allowInventory
  }

  /** One event. Both state updates of a settlement run in the same
      continuation, so they see the same `mounted`. */
  function Step(s: Flags, e: Event): (next: Flags)
    ensures !s.mounted ==> next.loaded == s.loaded && next.allowInventory == s.allowInventory
    ensures s.loaded ==> next.loaded
    ensures (s.allowInventory ==> s.loaded) ==> (next.allowInventory ==> next.loaded)
    ensures !s.allowInventory && next.allowInventory ==> s.mounted && e.FetchSucceeded? && Entitled(e.data)
  {
    match e
    case FetchSucceeded(data) => if s.mounted then s.(allowInventory := Entitled(data), loaded := true) else s
    case FetchFailed => if s.mounted then s.(loaded := true) else s
    case Unmounted => s.(mounted := false)
  }

  /** The flags after the events, in order. */
  function Run(s: Flags, events: seq<Event>): Flags
    decreases |events|
  {
    if events == [] then s else Run(Step(s, events[0]), events[1..])
  }

  lemma {:induction false} RunAppend(s: Flags, a: seq<Event>, b: seq<Event>)
    ensures Run(s, a + b) == Run(Run(s, a), b)
    decreases |a|
  {
    if a != [] {
      assert (a + b)[1..] == a[1..] + b;
      RunAppend(Step(s, a[0]), a[1..], b);
    } else {
      assert a + b == b;
    }
  }

  /** Once unmounted, the layout ignores every later event. */
  lemma {:induction false} UnmountedIgnoresEvents(s: Flags, events: seq<Event>)
    requires !s.mounted
    ensures Run(s, events) == s
    decreases |events|
  {
    if events != [] {
      UnmountedIgnoresEvents(Step(s, events[0]), events[1..]);
    }
  }

  /** A settlement that arrives after the cleanup changes neither `loaded`
      nor `allowInventory`: whatever follows an unmount leaves the flags as
      the unmount left them. */
  lemma LateSettlementIgnored(before: seq<Event>, after: seq<Event>)
    ensures var s := Run(Mounted, before);
      Run(Mounted, before + [Unmounted] + after) == s.(mounted := false)
  {
    RunAppend(Mounted, before, [Unmounted] + after);
    assert before + [Unmounted] + after == before + ([Unmounted] + after);
    var s := Run(Mounted, before);
    assert Run(s, [Unmounted] + after) == Run(Step(s, Unmounted), after);
    UnmountedIgnoresEvents(Step(s, Unmounted), after);
  }

  /** Events other than settlements never change `loaded` or
      `allowInventory`; in particular the entry stays hidden while the
      fetch is pending. */
  lemma {:induction false} NoSettlementKeepsFlags(s: Flags, events: seq<Event>)
    requires forall i :: 0 <= i < |events| ==> !IsSettlement(events[i])
    ensures Run(s, events).loaded == s.loaded && Run(s, events).allowInventory == s.allowInventory
    decreases |events|
  {
    if events != [] {
      NoSettlementKeepsFlags(Step(s, events[0]), events[1..]);
    }
  }

  /** `allowInventory ==> loaded` holds after any events from mount. */
  lemma {:induction false} AllowedOnlyWhenLoaded(s: Flags, events: seq<Event>)
    requires s.allowInventory ==> s.loaded
    ensures Run(s, events).allowInventory ==> Run(s, events).loaded
    decreases |events|
  {
    if events != [] {
      AllowedOnlyWhenLoaded(Step(s, events[0]), events[1..]);
    }
  }

  /** Fail closed: from a state that does not show the entry, the entry is
      shown afterwards only if some event was a successful fetch with a
      truthy `staff_can_receive` that arrived while still mounted. */
  lemma {:induction false} ShownOnlyIfGranted(s: Flags, events: seq<Event>)
    requires !s.allowInventory
    ensures Shown(Run(s, events)) ==>
      exists i :: 0 <= i < |events| && events[i].FetchSucceeded? && Entitled(events[i].data) &&
        s.mounted && forall j :: 0 <= j < i ==> !events[j].Unmounted?
    decreases |events|
  {
    if events != [] && Shown(Run(s, events)) {
      var next := Step(s, events[0]);
      if next.allowInventory {
        assert events[0].FetchSucceeded? && Entitled(events[0].data) && s.mounted;
      } else {
        ShownOnlyIfGranted(next, events[1..]);
        var i :| 0 <= i < |events[1..]| && events[1..][i].FetchSucceeded? && Entitled(events[1..][i].data) &&
          next.mounted && forall j :: 0 <= j < i ==> !events[1..][j].Unmounted?;
        assert !events[0].Unmounted?;
        assert events[i + 1] == events[1..][i];
        forall j | 0 <= j < i + 1
          ensures !events[j].Unmounted?
        {
          if j > 0 {
            assert events[j] == events[1..][j - 1];
          }
        }
      }
    }
  }

  /** The layout's settings fetch settles at most once per mount. */
  predicate SingleSettlement(events: seq<Event>) {
    forall i, j :: 0 <= i < j < |events| ==> !(IsSettlement(events[i]) && IsSettlement(events[j]))
  }

  /** For one mount, the Inventory entry ends up in the menu if and only if
      the fetch succeeded with a truthy `staff_can_receive` before the
      layout was unmounted: not while pending, not after a failure, not for
      a falsy or missing flag, not when the answer came too late. */
  lemma InventoryShownIff(events: seq<Event>)
    requires SingleSettlement(events)
    ensures Shown(Run(Mounted, events)) <==>
      exists i :: 0 <= i < |events| && events[i].FetchSucceeded? && Entitled(events[i].data) &&
        forall j :: 0 <= j < i ==> !events[j].Unmounted?
  {
    ShownOnlyIfGranted(Mounted, events);
    if i :| (0 <= i < |events| && events[i].FetchSucceeded? && Entitled(events[i].data) &&
             forall j :: 0 <= j < i ==> !events[j].Unmounted?) {
      if i > 0 {
        assert IsSettlement(events[0]);
        assert false;
      }
      forall k | 0 <= k < |events[1..]|
        ensures !IsSettlement(events[1..][k])
      {
        assert events[1..][k] == events[k + 1];
      }
      NoSettlementKeepsFlags(Step(Mounted, events[0]), events[1..]);
    }
  }

  /** localStorage.removeItem: only `key` goes, every other entry stays. */
  function RemoveItem(storage: map<string, string>, key: string): (after: map<string, string>)
    ensures key !in after
    ensures forall k :: k != key ==> (k in after <==> k in storage)
    ensures forall k :: k in after ==> after[k] == storage[k]
  {
    storage - {key}
  }

  /** The mounted layout. `settled` records whether the settings request
      issued on mount has answered; it answers at most once. */
  class StaffLayout {
    var mounted: bool
    var loaded: bool
    var allowInventory: bool
    ghost var settled: bool
    var storage: map<string, string>
    var navigatedTo: Option<string>

    ghost predicate Valid()
      reads this
    {
      (allowInventory ==> loaded) && (loaded ==> settled)
    }

    function State(): Flags
      reads this
    {
      Flags(mounted, loaded, allowInventory)
    }

    function Entries(): seq<MenuEntry>
      reads this
    {
      Menu(loaded, allowInventory)
    }

    /** Mount: both state variables start false, the effect's `mounted` is
        set, and the settings request is on its way. */
    constructor (storage: map<string, string>)
      ensures Valid() && !settled
      ensures State() == Mounted && Inventory !in Entries()
      ensures this.storage == storage && navigatedTo == None
    {
      mounted, loaded, allowInventory := true, false, false;
      settled := false;
      this.storage := storage;
      navigatedTo := None;
    }

    /** The settings request resolves with `data`. */
    method OnSettingsLoaded(data: Value)
      requires Valid() && !settled
      modifies this
      ensures Valid() && settled
      ensures State() == Step(old(State()), FetchSucceeded(data))
      ensures old(mounted) ==> loaded && allowInventory == Entitled(data)
      ensures !old(mounted) ==> loaded == old(loaded) && allowInventory == old(allowInventory)
      ensures storage == old(storage) && navigatedTo == old(navigatedTo)
    {
      if mounted {
        allowInventory := Entitled(data);
      }
      if mounted {
        loaded := true;
      }
      settled := true;
    }

    /** The settings request rejects: the entry stays hidden and nothing is
        reported. */
    method OnSettingsFailed()
      requires Valid() && !settled
      modifies this
      ensures Valid() && settled
      ensures State() == Step(old(State()), FetchFailed)
      ensures allowInventory == old(allowInventory) == false
      ensures loaded == old(mounted) || old(loaded)
      ensures storage == old(storage) && navigatedTo == old(navigatedTo)
    {
      if mounted {
        loaded := true;
      }
      settled := true;
    }

    /** The effect's cleanup. */
    method Unmount()
      requires Valid()
      modifies this
      ensures Valid() && settled == old(settled)
      ensures State() == Step(old(State()), Unmounted)
      ensures !mounted && loaded == old(loaded) && allowInventory == old(allowInventory)
      ensures storage == old(storage) && navigatedTo == old(navigatedTo)
    {
      mounted := false;
    }

    /** The logout button, given how the POST to /logout settles. Only when
        it resolves is the token removed and the app sent to `/`; when it
        rejects, the failure is logged and nothing else happens. */
    method HandleLogout(server: Settled<Value>)
      requires Valid()
      modifies this
      ensures Valid()
      ensures server.Resolved? ==> storage == RemoveItem(old(storage), TokenKey) && navigatedTo == Some("/")
      ensures server.Rejected? ==> storage == old(storage) && navigatedTo == old(navigatedTo)
      ensures State() == old(State()) && settled == old(settled)
    {
      if server.Resolved? {
        storage := RemoveItem(storage, TokenKey);
        navigatedTo := Some("/");
      }
    }
  }
}
