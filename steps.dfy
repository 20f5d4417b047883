/**
 * The step views of src/ui/steps.ts: one-button steps that emit their event and then disable their
 * button, and the realm picker, which shows realms by descending user count and emits the realm of
 * the row clicked. Every view's emitter dispatches on the `$case` (see `Views.CaseTag`).
 */
module Steps {
  import opened Wrappers
  import opened Emitters
  import opened Views
  import opened Archipelago

  /** The events of the step views (`WelcomeEvent`, `SelectRealmEvent`, `JoinIslandEvent`, ...). */
  datatype StepEvent =
    | Start
    | Create
    | Discover
    | Select(realm: Realm)
    | Request
    | Respond
    | Join

  function StepCase(ev: StepEvent): string {
    match ev
    case Start => "start"
    case Create => "create"
    case Discover => "discover"
    case Select(_) => "select"
    case Request => "request"
    case Respond => "respond"
    case Join => "join"
  }

  /**
   * A step with one button: the welcome, create-identity, discover-realms, request-challenge,
   * respond-challenge, start-heartbeat and join-island views. All but the last override `disable` to
   * mark their button; the join-island view keeps the empty `disable` of `StepView`.
   */
  class StepButtonView {
    const events: Emitter<StepEvent>
    const action: StepEvent
    const ownsDisable: bool
    var disabled: bool

    ghost predicate Valid()
      reads this, events
    {
      events.Valid() && forall ev :: events.tagOf(ev) == CaseTag(StepCase, ev)
    }

    constructor (action: StepEvent, ownsDisable: bool)
      ensures Valid() && fresh(events) && events.receivers == map[]
      ensures this.action == action && this.ownsDisable == ownsDisable && !disabled
    {
      events := new Emitter((ev: StepEvent) => CaseTag(StepCase, ev));
      this.action := action;
      this.ownsDisable := ownsDisable;
      disabled := false;
    }

    method Disable()
      modifies this
      ensures disabled == (old(disabled) || ownsDisable)
    {
      if ownsDisable {
        disabled := true;
      }
    }

    /** The click handler: emit the step's event, then disable. A disabled button only looks disabled;
        its listener stays attached. */
    method OnClick() returns (calls: seq<Receiver>)
      requires Valid()
      modifies this, events
      ensures Valid()
      ensures forall r :: r in calls <==> r in Registered(old(events.receivers), StepCase(action))
      ensures events.receivers == AfterEmit(old(events.receivers), Some(StepCase(action)))
      ensures events.caught == Settle(old(events.caught), Registered(old(events.receivers), StepCase(action)), action)
      ensures disabled == (old(disabled) || ownsDisable)
    {
      calls := events.Emit(action);
      Disable();
    }
  }

  /** Realms in non-increasing order of `usersCount`. */
  predicate ByUsersDesc(s: seq<Realm>) {
    forall i, j :: 0 <= i < j < |s| ==> s[i].usersCount >= s[j].usersCount
  }

  /** The first `n` elements of `a` are in non-increasing order of `usersCount`. */
  ghost predicate SortedPrefix(a: array<Realm>, n: int)
    requires 0 <= n <= a.Length
    reads a
  {
    forall p, q :: 0 <= p < q < n ==> a[p].usersCount >= a[q].usersCount
  }

  /** `sort((a, b) => b.usersCount - a.usersCount)`, in place: insertion sort, which keeps realms of
      equal user count in their original order. */
  method SortByUsers(a: array<Realm>)
    modifies a
    ensures ByUsersDesc(a[..])
    ensures multiset(a[..]) == multiset(old(a[..]))
  {
    var i := 0;
    while i < a.Length
      invariant 0 <= i <= a.Length
      invariant SortedPrefix(a, i)
      invariant multiset(a[..]) == multiset(old(a[..]))
    {
      SinkInto(a, i);
      i := i + 1;
    }
  }

  /** Moves `a[i]` left past the realms with fewer users, extending the sorted prefix by one. */
  method SinkInto(a: array<Realm>, i: int)
    requires 0 <= i < a.Length && SortedPrefix(a, i)
    modifies a
    ensures SortedPrefix(a, i + 1)
    ensures multiset(a[..]) == multiset(old(a[..]))
  {
    var j := i;
    while j > 0 && a[j - 1].usersCount < a[j].usersCount
      invariant 0 <= j <= i
      invariant forall p, q :: 0 <= p < q <= i && p != j && q != j ==> a[p].usersCount >= a[q].usersCount
      invariant forall q :: j < q <= i ==> a[j].usersCount > a[q].usersCount
      invariant multiset(a[..]) == multiset(old(a[..]))
    {
      SwapDown(a, j);
      j := j - 1;
    }
  }

  /** Exchanges `a[j - 1]` and `a[j]`. */
  method SwapDown(a: array<Realm>, j: int)
    requires 0 < j < a.Length
    modifies a
    ensures a[j - 1] == old(a[j]) && a[j] == old(a[j - 1])
    ensures forall k :: 0 <= k < a.Length && k != j - 1 && k != j ==> a[k] == old(a[k])
    ensures multiset(a[..]) == multiset(old(a[..]))
  {
    a[j - 1], a[j] := a[j], a[j - 1];
  }

  /** `[...realms]` sorted by descending user count; the caller's array is left as it was. */
  method SortedCopy(realms: array<Realm>) returns (sorted: seq<Realm>)
    ensures ByUsersDesc(sorted)
    ensures multiset(sorted) == multiset(realms[..])
  {
    var copy := new Realm[realms.Length](i reads realms requires 0 <= i < realms.Length => realms[i]);
    assert copy[..] == realms[..];
    SortByUsers(copy);
    sorted := copy[..];
  }

  /** The realm picker: one row per realm, in the order the rows were appended, and whether each row's
      connect button is marked disabled. */
  class SelectRealmView {
    const events: Emitter<StepEvent>
    var rows: seq<Realm>
    var disabled: seq<bool>

    ghost predicate Valid()
      reads this, events
    {
      events.Valid() && (forall ev :: events.tagOf(ev) == CaseTag(StepCase, ev)) && |disabled| == |rows|
    }

    constructor ()
      ensures Valid() && fresh(events) && events.receivers == map[]
      ensures rows == [] && disabled == []
    {
      events := new Emitter((ev: StepEvent) => CaseTag(StepCase, ev));
      rows := [];
      disabled := [];
    }

    /** Appends one row per realm, the new rows sorted by descending user count; earlier rows stay. */
    method SetRealms(realms: array<Realm>)
      requires Valid()
      modifies this
      ensures Valid()
      ensures |rows| == |old(rows)| + realms.Length && rows[..|old(rows)|] == old(rows)
      ensures ByUsersDesc(rows[|old(rows)|..])
      ensures multiset(rows[|old(rows)|..]) == multiset(realms[..])
      ensures disabled == old(disabled) + seq(realms.Length, _ => false)
    {
      var sorted := SortedCopy(realms);
      var i := 0;
      while i < |sorted|
        invariant 0 <= i <= |sorted|
        invariant rows == old(rows) + sorted[..i]
        invariant disabled == old(disabled) + seq(i, _ => false)
      {
        rows := rows + [sorted[i]];
        disabled := disabled + [false];
        i := i + 1;
      }
      assert sorted[..i] == sorted;
      assert rows[|old(rows)|..] == sorted;
      assert |sorted| == realms.Length by {
        assert |multiset(sorted)| == |multiset(realms[..])|;
      }
    }

    /** A click on the connect button of row `i`: emit `select` with that row's realm, then mark the
        buttons present disabled. Rows appended later start enabled. */
    method OnRowClick(i: nat) returns (calls: seq<Receiver>)
      requires Valid() && i < |rows|
      modifies this, events
      ensures Valid()
      ensures forall r :: r in calls <==> r in Registered(old(events.receivers), "select")
      ensures events.receivers == AfterEmit(old(events.receivers), Some("select"))
      ensures events.caught == Settle(old(events.caught), Registered(old(events.receivers), "select"), Select(old(rows)[i]))
      ensures rows == old(rows) && disabled == seq(|rows|, _ => true)
    {
      calls := events.Emit(Select(rows[i]));
      disabled := seq(|rows|, _ => true);
    }
  }
}
