/**
 * PermissionListener: replaces each player's permission map by a proxy that forwards every call,
 * debounces bursts of put calls, and then diffs the player's active permissions against the
 * previous ones into the added and removed lists of a permissions-changed event.
 */
module PermissionListener {
  import opened Wrappers

  type PlayerId = nat

  /** Server ticks until a debounced change is handled. */
  const DebounceTicks: int := 10

  /** A put restarts the debounce task once the current one is older than this (10 ticks of 25 ms). */
  const DebounceWindowMillis: int := DebounceTicks * (1000 / 20 / 2)

  /** The entries of xs that are not in ys, in the order of xs. */
  function Absent(xs: seq<string>, ys: seq<string>): (r: seq<string>)
    ensures |r| <= |xs|
    ensures forall x :: x in r <==> x in xs && x !in ys
  {
    if xs == [] then []
    else Absent(xs[..|xs| - 1], ys) + (if xs[|xs| - 1] in ys then [] else [xs[|xs| - 1]])
  }

  /** Absent keeps the order of xs: filtering a concatenation filters each part. */
  lemma {:induction false} AbsentAppend(a: seq<string>, b: seq<string>, ys: seq<string>)
    ensures Absent(a + b, ys) == Absent(a, ys) + Absent(b, ys)
    decreases |b|
  {
    if b == [] {
      assert a + b == a;
    } else {
      var n := |b| - 1;
      assert (a + b)[..|a + b| - 1] == a + b[..n];
      assert (a + b)[|a + b| - 1] == b[n];
      AbsentAppend(a, b[..n], ys);
    }
  }

  /** A list none of whose entries is excluded is kept whole. */
  lemma {:induction false} AbsentOfNothing(xs: seq<string>)
    ensures Absent(xs, []) == xs
    decreases |xs|
  {
    if xs != [] {
      AbsentOfNothing(xs[..|xs| - 1]);
      assert xs[..|xs| - 1] + [xs[|xs| - 1]] == xs;
    }
  }

  /** The lists of a permissions-changed event: the current permissions, and the added and removed ones. */
  datatype PermissionsChanged = PermissionsChanged(player: PlayerId, permissions: seq<string>, added: seq<string>, removed: seq<string>)

  /**
   * The diff of fireEvent: the removed permissions are the previous ones that are gone, the added
   * ones the current ones that are new; previous without the removed, plus the added, is current.
   */
  lemma DiffReconstructs(previous: seq<string>, current: seq<string>)
    ensures forall x :: x in current <==> (x in previous && x !in Absent(previous, current)) || x in Absent(current, previous)
    ensures forall x :: x in previous <==> (x in current && x !in Absent(current, previous)) || x in Absent(previous, current)
  {
  }

  /** A player without history gains every current permission and loses none. */
  lemma FirstDiff(current: seq<string>)
    ensures Absent(current, []) == current
    ensures Absent([], current) == []
  {
    AbsentOfNothing(current);
  }

  /** Filtering out a list that covers every entry leaves nothing. */
  lemma {:induction false} AbsentOfCovered(xs: seq<string>, ys: seq<string>)
    requires forall x :: x in xs ==> x in ys
    ensures Absent(xs, ys) == []
    decreases |xs|
  {
    if xs != [] {
      var n := |xs| - 1;
      assert forall x :: x in xs[..n] ==> x in xs;
      AbsentOfCovered(xs[..n], ys);
      assert xs[n] in xs;
    }
  }

  /** Two consecutive changes to the same list report nothing added and nothing removed the second time. */
  lemma RepeatedChangeIsEmpty(current: seq<string>)
    ensures Absent(current, current) == []
  {
    AbsentOfCovered(current, current);
  }

  /** One of fireEvent's loops: the entries of `xs`, in order, that `ys` does not contain. */
  method CollectAbsent(xs: seq<string>, ys: seq<string>) returns (r: seq<string>)
    ensures r == Absent(xs, ys)
  {
    r := [];
    var i := 0;
    while i < |xs|
      invariant 0 <= i <= |xs|
      invariant r == Absent(xs[..i], ys)
    {
      assert xs[..i + 1][..i] == xs[..i];
      if xs[i] !in ys {
        r := r + [xs[i]];
      }
      i := i + 1;
    }
    assert xs[..|xs|] == xs;
  }

  /** fireEvent's two loops: removed in the previous list's order, added in the current list's order. */
  method Diff(previous: seq<string>, current: seq<string>) returns (added: seq<string>, removed: seq<string>)
    ensures added == Absent(current, previous)
    ensures removed == Absent(previous, current)
  {
    removed := CollectAbsent(previous, current);
    added := CollectAbsent(current, previous);
  }

  /** A permission attachment: the permission's name and whether it is granted. */
  datatype Attachment = Attachment(permission: string, value: bool)

  /** getPermissions: the names of the granted attachments, in the map's iteration order. */
  function ActivePermissions(attachments: seq<Attachment>): (r: seq<string>)
    ensures |r| <= |attachments|
    ensures forall i :: 0 <= i < |attachments| && attachments[i].value ==> attachments[i].permission in r
  {
    if attachments == [] then []
    else (if attachments[0].value then [attachments[0].permission] else []) + ActivePermissions(attachments[1..])
  }

  /** Every active permission comes from a granted attachment. */
  lemma {:induction false} ActivePermissionsSound(attachments: seq<Attachment>, s: string)
    requires s in ActivePermissions(attachments)
    ensures exists i :: 0 <= i < |attachments| && attachments[i].value && attachments[i].permission == s
    decreases |attachments|
  {
    if attachments[0].value && s == attachments[0].permission {
    } else {
      ActivePermissionsSound(attachments[1..], s);
      var i :| 0 <= i < |attachments[1..]| && attachments[1..][i].value && attachments[1..][i].permission == s;
      assert attachments[i + 1] == attachments[1..][i];
    }
  }

  /** The value of a player's permissions field: the server's own map, or a proxy over another value. */
  datatype PermsRef = MapRef(id: nat) | PermissionProxy(player: PlayerId, over: PermsRef)

  /** The recorded original references after proxyPermissions: recorded only when the proxy was set. */
  function AfterProxy(refs: map<PlayerId, PermsRef>, p: PlayerId, current: PermsRef, reflectionOk: bool, setOk: bool): (r: map<PlayerId, PermsRef>)
    ensures reflectionOk && setOk ==> r == refs[p := current]
    ensures !(reflectionOk && setOk) ==> r == refs
  {
    if reflectionOk && setOk then refs[p := current] else refs
  }

  /** The recorded references after unproxyPermissions: dropped once the original is restored. */
  function AfterUnproxy(refs: map<PlayerId, PermsRef>, p: PlayerId, reflectionOk: bool): (r: map<PlayerId, PermsRef>)
    ensures p in refs && reflectionOk ==> r == refs - {p}
    ensures p !in refs || !reflectionOk ==> r == refs
  {
    if p in refs && reflectionOk then refs - {p} else refs
  }

  /** Proxying an unrecorded player and unproxying it leaves the records as they were. */
  lemma ProxyUnproxyRoundTrip(refs: map<PlayerId, PermsRef>, p: PlayerId, current: PermsRef)
    requires p !in refs
    ensures AfterProxy(refs, p, current, true, true)[p] == current
    ensures AfterUnproxy(AfterProxy(refs, p, current, true, true), p, true) == refs
  {
  }

  /** The state of a proxy's debounce: whether a task is pending and when it was created. */
  datatype Debounce = Debounce(hasTask: bool, creation: int)

  /** A map call restarts the debounce task when it is a put and no task is pending or the pending one is old. */
  predicate Restarts(d: Debounce, methodName: string, now: int) {
    methodName == "put" && (!d.hasTask || now - d.creation > DebounceWindowMillis)
  }

  /** The debounce state after a map call. */
  function Step(d: Debounce, methodName: string, now: int): (r: Debounce)
    ensures Restarts(d, methodName, now) ==> r == Debounce(true, now)
    ensures !Restarts(d, methodName, now) ==> r == d
  {
    if Restarts(d, methodName, now) then Debounce(true, now) else d
  }

  /** The number of restarts a sequence of put calls at the given times causes. */
  function BurstRestarts(d: Debounce, times: seq<int>): nat
    decreases |times|
  {
    if times == [] then 0
    else (if Restarts(d, "put", times[0]) then 1 else 0) + BurstRestarts(Step(d, "put", times[0]), times[1..])
  }

  /** A burst of puts within the window of a pending task's creation restarts nothing. */
  lemma {:induction false} PendingBurstRestartsNothing(creation: int, times: seq<int>)
    requires forall i :: 0 <= i < |times| ==> times[i] - creation <= DebounceWindowMillis
    ensures BurstRestarts(Debounce(true, creation), times) == 0
    decreases |times|
  {
    if times != [] {
      PendingBurstRestartsNothing(creation, times[1..]);
    }
  }

  /** With no task pending, a burst of puts within the window of its first call starts exactly one task. */
  lemma BurstRestartsOnce(times: seq<int>, creation: int)
    requires |times| > 0
    requires forall i :: 0 <= i < |times| ==> times[i] - times[0] <= DebounceWindowMillis
    ensures BurstRestarts(Debounce(false, creation), times) == 1
  {
    assert forall i :: 0 <= i < |times[1..]| ==> times[1..][i] == times[i + 1];
    PendingBurstRestartsNothing(times[0], times[1..]);
  }

  /** What the proxy did with a map call: forwarded, and whether the debounce task was (re)started. */
  datatype Invocation = Forwarded(restarted: bool)

  /** The proxy's invocation handler for one player's permission map. */
  class ProxyHandler {
    const player: PlayerId
    var debounce: Debounce
    /** The debounce tasks cancelled so far. */
    var cancelled: nat

    constructor(player: PlayerId)
      ensures this.player == player && debounce == Debounce(false, 0) && cancelled == 0
    {
      this.player := player;
      debounce := Debounce(false, 0);
      cancelled := 0;
    }

    /** invoke: every call is forwarded; a put may cancel the pending task and schedule a new one. */
    method Invoke(methodName: string, now: int) returns (r: Invocation)
      modifies this
      ensures r == Forwarded(Restarts(old(debounce), methodName, now))
      ensures debounce == Step(old(debounce), methodName, now)
      ensures cancelled == if Restarts(old(debounce), methodName, now) && old(debounce).hasTask then old(cancelled) + 1 else old(cancelled)
    {
      if methodName != "put" {
        return Forwarded(false);
      }
      if !debounce.hasTask || now - debounce.creation > DebounceWindowMillis {
        if debounce.hasTask {
          cancelled := cancelled + 1;
        }
        debounce := Debounce(true, now);
        return Forwarded(true);
      }
      return Forwarded(false);
    }

    /** The debounce task runs: the listener handles the active permissions and the task is cleared. */
    method TaskRuns(listener: Listener, attachments: seq<Attachment>)
      modifies this, listener
      ensures debounce == old(debounce).(hasTask := false) && cancelled == old(cancelled)
      ensures listener.previousPermissions == old(listener.previousPermissions)[player := ActivePermissions(attachments)]
      ensures listener.vanillaRefs == old(listener.vanillaRefs)
      ensures listener.events == old(listener.events) + [ChangeEvent(player, ActivePermissions(attachments), old(listener.previousPermissions))]
    {
      listener.OnPermissionChange(player, ActivePermissions(attachments));
      debounce := debounce.(hasTask := false);
    }
  }

  /** The previous permissions of a player, or none without history. */
  function PreviousOf(previous: map<PlayerId, seq<string>>, p: PlayerId): (r: seq<string>)
    ensures p in previous ==> r == previous[p]
    ensures p !in previous ==> r == []
  {
    if p in previous then previous[p] else []
  }

  /** The event fireEvent emits for a change of p's permissions to perms. */
  function ChangeEvent(p: PlayerId, perms: seq<string>, previous: map<PlayerId, seq<string>>): (e: PermissionsChanged)
    ensures e.player == p && e.permissions == perms
    ensures forall x :: x in e.added <==> x in perms && x !in PreviousOf(previous, p)
    ensures forall x :: x in e.removed <==> x in PreviousOf(previous, p) && x !in perms
  {
    PermissionsChanged(p, perms, Absent(perms, PreviousOf(previous, p)), Absent(PreviousOf(previous, p), perms))
  }

  /** The listener's records: the original permission maps, the previous lists, and the events fired. */
  class Listener {
    var vanillaRefs: map<PlayerId, PermsRef>
    var previousPermissions: map<PlayerId, seq<string>>
    var events: seq<PermissionsChanged>

    constructor()
      ensures vanillaRefs == map[] && previousPermissions == map[] && events == []
    {
      vanillaRefs := map[];
      previousPermissions := map[];
      events := [];
    }

    /** fireEvent: the diff against the previous list, as a permissions-changed event. */
    method FireEvent(p: PlayerId, permissions: seq<string>)
      modifies this
      ensures events == old(events) + [ChangeEvent(p, permissions, previousPermissions)]
      ensures vanillaRefs == old(vanillaRefs) && previousPermissions == old(previousPermissions)
    {
      var previous := if p in previousPermissions then previousPermissions[p] else [];
      var added, removed := Diff(previous, permissions);
      events := events + [PermissionsChanged(p, permissions, added, removed)];
    }

    /** onPermissionChange: the event is fired, then the list becomes the player's previous one. */
    method OnPermissionChange(p: PlayerId, permissions: seq<string>)
      modifies this
      ensures events == old(events) + [ChangeEvent(p, permissions, old(previousPermissions))]
      ensures previousPermissions == old(previousPermissions)[p := permissions]
      ensures vanillaRefs == old(vanillaRefs)
    {
      FireEvent(p, permissions);
      previousPermissions := previousPermissions[p := permissions];
    }

    /**
     * proxyPermissions (onLogin, and initialize for each online player): the field gets a proxy
     * over its current value, which is recorded when setting the field succeeded.
     */
    method ProxyPermissions(p: PlayerId, current: PermsRef, reflectionOk: bool, setOk: bool) returns (installed: Option<PermsRef>)
      modifies this
      ensures vanillaRefs == AfterProxy(old(vanillaRefs), p, current, reflectionOk, setOk)
      ensures installed == if reflectionOk && setOk then Some(PermissionProxy(p, current)) else None
      ensures previousPermissions == old(previousPermissions) && events == old(events)
    {
      if !reflectionOk {
        return None;
      }
      var proxy := PermissionProxy(p, current);
      if setOk {
        vanillaRefs := vanillaRefs[p := current];
        return Some(proxy);
      }
      return None;
    }

    /** unproxyPermissions (onQuit, and cleanup for each online player): the original is restored and its record dropped. */
    method UnproxyPermissions(p: PlayerId, reflectionOk: bool) returns (restored: Option<PermsRef>)
      modifies this
      ensures vanillaRefs == AfterUnproxy(old(vanillaRefs), p, reflectionOk)
      ensures restored == if p in old(vanillaRefs) && reflectionOk then Some(old(vanillaRefs)[p]) else None
      ensures previousPermissions == old(previousPermissions) && events == old(events)
    {
      if p !in vanillaRefs {
        return None;
      }
      var original := vanillaRefs[p];
      if !reflectionOk {
        return None;
      }
      vanillaRefs := vanillaRefs - {p};
      return Some(original);
    }

    /** cleanup: every online player is unproxied. */
    method Cleanup(online: seq<PlayerId>)
      modifies this
      ensures vanillaRefs == map p | p in old(vanillaRefs) && p !in online :: old(vanillaRefs)[p]
      ensures previousPermissions == old(previousPermissions) && events == old(events)
    {
      var i := 0;
      while i < |online|
        invariant 0 <= i <= |online|
        invariant vanillaRefs == map p | p in old(vanillaRefs) && p !in online[..i] :: old(vanillaRefs)[p]
        invariant previousPermissions == old(previousPermissions) && events == old(events)
      {
        var restored := UnproxyPermissions(online[i], true);
        assert forall p :: p in online[..i + 1] <==> p in online[..i] || p == online[i] by {
          assert online[..i + 1] == online[..i] + [online[i]];
        }
        i := i + 1;
      }
      assert online[..|online|] == online;
    }
  }
}
