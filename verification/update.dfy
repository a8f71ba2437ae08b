/** Updating a running cluster (pkg/controller/update.go): the volumes of a
    node are compared slot by slot with the previous version of the node,
    every changed, added or removed slot becomes one UpdateVolume, and the
    node's deployment is rewired to the new volumes; the node list of the
    cluster is compared the same way to pick the nodes to update and the
    nodes to deploy. */
module Update {
  import opened Types
  import opened Init
  import opened Objects
  import opened Api
  import opened Create
  import opened Deploy
  import opened Heketi

  /** One volume slot of a node that differs between two versions of the
      node: the old and the new definition (None where the version has no
      volume there), the device index, and whether it is the state volume. */
  datatype UpdateVolume = UpdateVolume(oldVol: Option<NodeVolume>, newVol: Option<NodeVolume>, index: int, state: bool)

  /** The zero UpdateVolume, which stands for "nothing to update". */
  const NoUpdate := UpdateVolume(None, None, 0, false)

  /** The eight fields diffGlusterNodeVolume compares. */
  predicate SameVolume(a: NodeVolume, b: NodeVolume)
  {
    && a.meta.name == b.meta.name
    && a.pv.capacity == b.pv.capacity
    && a.pv.reclaimPolicy == b.pv.reclaimPolicy
    && a.pv.storageClassName == b.pv.storageClassName
    && a.pv.accessModes == b.pv.accessModes
    && a.pv.mountOptions == b.pv.mountOptions
    && a.pv.nodeAffinity == b.pv.nodeAffinity
    && a.pv.source == b.pv.source
  }

  /** A slot whose two versions call for an update: both present and
      different in a compared field, or present in one version only. */
  predicate Changed(a: Option<NodeVolume>, b: Option<NodeVolume>)
  {
    if a.Some? && b.Some? then !SameVolume(a.value, b.value) else a.Some? || b.Some?
  }

  /** The volume at slot i of a device list, None past its end. */
  function At(devices: seq<NodeVolume>, i: int): Option<NodeVolume>
  {
    if 0 <= i < |devices| then Some(devices[i]) else None
  }

  function Min(a: int, b: int): int
  {
    if a < b then a else b
  }

  function Max(a: int, b: int): int
  {
    if a < b then b else a
  }

  /** diffGlusterNodeVolume: the zero value when both versions are present
      and agree on the compared fields, and also when both are absent at
      index 0, which the caller cannot tell from "no update"; otherwise both
      versions with the index, never marked as the state volume. */
  function DiffGlusterNodeVolume(oldVol: Option<NodeVolume>, newVol: Option<NodeVolume>, idx: int): (u: UpdateVolume)
    ensures u == NoUpdate <==>
      (oldVol.Some? && newVol.Some? && SameVolume(oldVol.value, newVol.value)) || (oldVol.None? && newVol.None? && idx == 0)
    ensures u != NoUpdate ==> u == UpdateVolume(oldVol, newVol, idx, false)
    ensures !u.state
  {
    var update := if oldVol.Some? && newVol.Some? then !SameVolume(oldVol.value, newVol.value) else true;
    if update then UpdateVolume(oldVol, newVol, idx, false) else NoUpdate
  }

  /** The state-volume entry updateGlusterNode starts its list with. */
  function StateUpdates(oldNode: Node, newNode: Node): seq<UpdateVolume>
  {
    var u := DiffGlusterNodeVolume(oldNode.stateVolume, newNode.stateVolume, 0);
    if u != NoUpdate then [u.(state := true)] else []
  }

  /** The entries of the first n slots both device lists have. */
  function CommonUpdates(olds: seq<NodeVolume>, news: seq<NodeVolume>, n: nat): seq<UpdateVolume>
    requires n <= |olds| && n <= |news|
  {
    if n == 0 then []
    else
      var u := DiffGlusterNodeVolume(Some(olds[n - 1]), Some(news[n - 1]), n - 1);
      CommonUpdates(olds, news, n - 1) + (if u != NoUpdate then [u] else [])
  }

  /** The entries of the slots lo..hi-1 that only the longer list has. */
  function TrailingUpdates(olds: seq<NodeVolume>, news: seq<NodeVolume>, lo: nat, hi: nat): seq<UpdateVolume>
    requires lo <= hi
    decreases hi - lo
  {
    if hi == lo then []
    else TrailingUpdates(olds, news, lo, hi - 1) + [UpdateVolume(At(olds, hi - 1), At(news, hi - 1), hi - 1, false)]
  }

  /** The list updateGlusterNode builds: the state volume, the changed
      common slots, then the slots past the shorter list. */
  function UpdateVolumes(oldNode: Node, newNode: Node): seq<UpdateVolume>
  {
    var olds := oldNode.devices;
    var news := newNode.devices;
    StateUpdates(oldNode, newNode)
      + CommonUpdates(olds, news, Min(|olds|, |news|))
      + TrailingUpdates(olds, news, Min(|olds|, |news|), Max(|olds|, |news|))
  }

  // ---------------------------------------------------------------------------
  // What the list says.

  /** The common slots: one entry per changed slot, in ascending slot order,
      carrying both versions of the slot. */
  lemma CommonUpdatesSpec(olds: seq<NodeVolume>, news: seq<NodeVolume>, n: nat)
    requires n <= |olds| && n <= |news|
    ensures var r := CommonUpdates(olds, news, n);
      && (forall k :: 0 <= k < |r| ==>
            && !r[k].state && 0 <= r[k].index < n
            && r[k].oldVol == At(olds, r[k].index) && r[k].newVol == At(news, r[k].index)
            && Changed(r[k].oldVol, r[k].newVol))
      && (forall k1, k2 :: 0 <= k1 < k2 < |r| ==> r[k1].index < r[k2].index)
      && (forall i :: 0 <= i < n && Changed(At(olds, i), At(news, i)) ==>
            exists k :: 0 <= k < |r| && r[k].index == i)
  {
    CommonUpdatesEntries(olds, news, n);
    CommonUpdatesAscending(olds, news, n);
    CommonUpdatesComplete(olds, news, n);
  }

  /** Every entry of the common slots is a changed slot with both versions. */
  predicate FaithfulEntries(olds: seq<NodeVolume>, news: seq<NodeVolume>, n: nat, r: seq<UpdateVolume>)
  {
    forall k :: 0 <= k < |r| ==>
      && !r[k].state && 0 <= r[k].index < n
      && r[k].oldVol == At(olds, r[k].index) && r[k].newVol == At(news, r[k].index)
      && Changed(r[k].oldVol, r[k].newVol)
  }

  lemma {:induction false} CommonUpdatesEntries(olds: seq<NodeVolume>, news: seq<NodeVolume>, n: nat)
    requires n <= |olds| && n <= |news|
    ensures FaithfulEntries(olds, news, n, CommonUpdates(olds, news, n))
  {
    if n > 0 {
      CommonUpdatesEntries(olds, news, n - 1);
      var prev := CommonUpdates(olds, news, n - 1);
      var r := CommonUpdates(olds, news, n);
      var u := DiffGlusterNodeVolume(Some(olds[n - 1]), Some(news[n - 1]), n - 1);
      assert r == prev + (if u != NoUpdate then [u] else []);
      forall k | 0 <= k < |r|
        ensures && !r[k].state && 0 <= r[k].index < n
          && r[k].oldVol == At(olds, r[k].index) && r[k].newVol == At(news, r[k].index)
          && Changed(r[k].oldVol, r[k].newVol)
      {
        if k < |prev| {
          assert r[k] == prev[k];
        } else {
          assert r[k] == u;
        }
      }
    }
  }

  /** The entries are in strictly ascending slot order. */
  predicate Ascending(r: seq<UpdateVolume>)
  {
    forall k1, k2 :: 0 <= k1 < k2 < |r| ==> r[k1].index < r[k2].index
  }

  /** Every changed slot below n has an entry. */
  predicate CoversChanged(olds: seq<NodeVolume>, news: seq<NodeVolume>, n: nat, r: seq<UpdateVolume>)
  {
    forall i :: 0 <= i < n && Changed(At(olds, i), At(news, i)) ==>
      exists k :: 0 <= k < |r| && r[k].index == i
  }

  lemma {:induction false} CommonUpdatesAscending(olds: seq<NodeVolume>, news: seq<NodeVolume>, n: nat)
    requires n <= |olds| && n <= |news|
    ensures Ascending(CommonUpdates(olds, news, n))
  {
    if n > 0 {
      CommonUpdatesAscending(olds, news, n - 1);
      CommonUpdatesEntries(olds, news, n - 1);
      var prev := CommonUpdates(olds, news, n - 1);
      assert forall k :: 0 <= k < |prev| ==> CommonUpdates(olds, news, n)[k] == prev[k];
    }
  }

  lemma {:induction false} CommonUpdatesComplete(olds: seq<NodeVolume>, news: seq<NodeVolume>, n: nat)
    requires n <= |olds| && n <= |news|
    ensures CoversChanged(olds, news, n, CommonUpdates(olds, news, n))
  {
    if n > 0 {
      CommonUpdatesComplete(olds, news, n - 1);
      var prev := CommonUpdates(olds, news, n - 1);
      var r := CommonUpdates(olds, news, n);
      assert r[..|prev|] == prev;
      forall i | 0 <= i < n && Changed(At(olds, i), At(news, i))
        ensures exists k :: 0 <= k < |r| && r[k].index == i
      {
        if i < n - 1 {
          var k :| 0 <= k < |prev| && prev[k].index == i;
          assert r[k] == prev[k];
        } else {
          assert r[|r| - 1].index == i;
        }
      }
    }
  }

  /** The slots past the shorter list: one entry each, in slot order. */
  lemma {:induction false} TrailingUpdatesSpec(olds: seq<NodeVolume>, news: seq<NodeVolume>, lo: nat, hi: nat)
    requires lo <= hi
    ensures |TrailingUpdates(olds, news, lo, hi)| == hi - lo
    ensures forall j :: 0 <= j < hi - lo ==> TrailingUpdates(olds, news, lo, hi)[j] == UpdateVolume(At(olds, lo + j), At(news, lo + j), lo + j, false)
    decreases hi - lo
  {
    if hi > lo {
      TrailingUpdatesSpec(olds, news, lo, hi - 1);
    }
  }

  /** Where the three parts of the list sit in it. */
  lemma Layout(oldNode: Node, newNode: Node)
    ensures var olds := oldNode.devices;
      var news := newNode.devices;
      var m := Min(|olds|, |news|);
      var s := StateUpdates(oldNode, newNode);
      var c := CommonUpdates(olds, news, m);
      var t := TrailingUpdates(olds, news, m, Max(|olds|, |news|));
      var r := UpdateVolumes(oldNode, newNode);
      && |r| == |s| + |c| + |t|
      && (forall k :: 0 <= k < |s| ==> r[k] == s[k])
      && (forall k :: 0 <= k < |c| ==> r[|s| + k] == c[k])
      && (forall k :: 0 <= k < |t| ==> r[|s| + |c| + k] == t[k])
  {
  }

  /** One entry of the common slots. */
  lemma {:induction false} CommonEntry(olds: seq<NodeVolume>, news: seq<NodeVolume>, n: nat, j: int)
    requires n <= |olds| && n <= |news|
    requires 0 <= j < |CommonUpdates(olds, news, n)|
    ensures var e := CommonUpdates(olds, news, n)[j];
      && !e.state && 0 <= e.index < n
      && e.oldVol == At(olds, e.index) && e.newVol == At(news, e.index)
      && Changed(e.oldVol, e.newVol)
  {
    var prev := CommonUpdates(olds, news, n - 1);
    if j < |prev| {
      CommonEntry(olds, news, n - 1, j);
      assert CommonUpdates(olds, news, n)[j] == prev[j];
    }
  }

  /** One entry of the list: the state entry exactly at position 0 when the
      state volume changed; any other entry is a changed device slot of
      either list, carrying both versions of the slot. */
  lemma EntryAt(oldNode: Node, newNode: Node, k: int)
    requires 0 <= k < |UpdateVolumes(oldNode, newNode)|
    ensures var r := UpdateVolumes(oldNode, newNode);
      var olds := oldNode.devices;
      var news := newNode.devices;
      && (r[k].state <==> k == 0 && Changed(oldNode.stateVolume, newNode.stateVolume))
      && (r[k].state ==> r[k] == UpdateVolume(oldNode.stateVolume, newNode.stateVolume, 0, true))
      && (!r[k].state ==>
            && 0 <= r[k].index < Max(|olds|, |news|)
            && r[k].oldVol == At(olds, r[k].index) && r[k].newVol == At(news, r[k].index)
            && Changed(r[k].oldVol, r[k].newVol))
  {
    var olds := oldNode.devices;
    var news := newNode.devices;
    var m := Min(|olds|, |news|);
    var s := StateUpdates(oldNode, newNode);
    var c := CommonUpdates(olds, news, m);
    var t := TrailingUpdates(olds, news, m, Max(|olds|, |news|));
    var r := UpdateVolumes(oldNode, newNode);
    assert r == s + c + t;
    assert |s| == 1 <==> Changed(oldNode.stateVolume, newNode.stateVolume);
    if k < |s| {
      assert r[k] == s[0];
    } else if k < |s| + |c| {
      assert r[k] == c[k - |s|];
      CommonEntry(olds, news, m, k - |s|);
    } else {
      var j := k - |s| - |c|;
      assert r[k] == t[j];
      TrailingUpdatesSpec(olds, news, m, Max(|olds|, |news|));
      assert t[j].index == m + j;
    }
  }

  /** The state volume is the only entry marked as such, and it comes first,
      exactly when the node's state volume changed. */
  lemma StateEntryFirst(oldNode: Node, newNode: Node)
    ensures var r := UpdateVolumes(oldNode, newNode);
      && (forall k :: 0 <= k < |r| ==> (r[k].state <==> k == 0 && Changed(oldNode.stateVolume, newNode.stateVolume)))
      && (|r| > 0 && r[0].state ==> r[0] == UpdateVolume(oldNode.stateVolume, newNode.stateVolume, 0, true))
  {
    var r := UpdateVolumes(oldNode, newNode);
    forall k | 0 <= k < |r|
      ensures r[k].state <==> k == 0 && Changed(oldNode.stateVolume, newNode.stateVolume)
    {
      EntryAt(oldNode, newNode, k);
    }
    if |r| > 0 {
      EntryAt(oldNode, newNode, 0);
    }
  }

  /** Every device entry is a slot of either list whose two versions
      differ, and carries both versions of its slot. */
  lemma DeviceEntriesChanged(oldNode: Node, newNode: Node)
    ensures var r := UpdateVolumes(oldNode, newNode);
      var olds := oldNode.devices;
      var news := newNode.devices;
      forall k :: 0 <= k < |r| && !r[k].state ==>
        && 0 <= r[k].index < Max(|olds|, |news|)
        && r[k].oldVol == At(olds, r[k].index) && r[k].newVol == At(news, r[k].index)
        && Changed(r[k].oldVol, r[k].newVol)
  {
    var r := UpdateVolumes(oldNode, newNode);
    forall k | 0 <= k < |r| && !r[k].state
      ensures 0 <= r[k].index < Max(|oldNode.devices|, |newNode.devices|)
      ensures r[k].oldVol == At(oldNode.devices, r[k].index) && r[k].newVol == At(newNode.devices, r[k].index)
      ensures Changed(r[k].oldVol, r[k].newVol)
    {
      EntryAt(oldNode, newNode, k);
    }
  }

  /** The device entries come in ascending slot order. */
  lemma DeviceEntriesAscending(oldNode: Node, newNode: Node)
    ensures var r := UpdateVolumes(oldNode, newNode);
      forall k1, k2 :: 0 <= k1 < k2 < |r| && !r[k1].state ==> r[k1].index < r[k2].index
  {
    var olds := oldNode.devices;
    var news := newNode.devices;
    var m := Min(|olds|, |news|);
    var s := StateUpdates(oldNode, newNode);
    var c := CommonUpdates(olds, news, m);
    var t := TrailingUpdates(olds, news, m, Max(|olds|, |news|));
    var r := UpdateVolumes(oldNode, newNode);
    Layout(oldNode, newNode);
    CommonUpdatesSpec(olds, news, m);
    TrailingUpdatesSpec(olds, news, m, Max(|olds|, |news|));
    forall k1, k2 | 0 <= k1 < k2 < |r| && !r[k1].state
      ensures r[k1].index < r[k2].index
    {
      EntryAt(oldNode, newNode, k1);
      if k1 < |s| + |c| && k2 >= |s| + |c| {
        assert r[k1] == c[k1 - |s|];
        assert r[k2] == t[k2 - |s| - |c|];
      }
    }
  }

  /** Every slot of either list whose two versions differ has an entry. */
  lemma DeviceEntriesComplete(oldNode: Node, newNode: Node)
    ensures var r := UpdateVolumes(oldNode, newNode);
      var olds := oldNode.devices;
      var news := newNode.devices;
      forall i :: 0 <= i < Max(|olds|, |news|) && Changed(At(olds, i), At(news, i)) ==>
        exists k :: 0 <= k < |r| && !r[k].state && r[k].index == i
  {
    var olds := oldNode.devices;
    var news := newNode.devices;
    var m := Min(|olds|, |news|);
    var s := StateUpdates(oldNode, newNode);
    var c := CommonUpdates(olds, news, m);
    var t := TrailingUpdates(olds, news, m, Max(|olds|, |news|));
    var r := UpdateVolumes(oldNode, newNode);
    Layout(oldNode, newNode);
    CommonUpdatesSpec(olds, news, m);
    TrailingUpdatesSpec(olds, news, m, Max(|olds|, |news|));
    forall i | 0 <= i < Max(|olds|, |news|) && Changed(At(olds, i), At(news, i))
      ensures exists k :: 0 <= k < |r| && !r[k].state && r[k].index == i
    {
      if i < m {
        var k :| 0 <= k < |c| && c[k].index == i;
        assert r[|s| + k] == c[k];
      } else {
        assert r[|s| + |c| + (i - m)] == t[i - m];
      }
    }
  }

  /** The list ends with exactly one entry per slot past the shorter list,
      an addition {None, new[i], i} when the new list is longer and a
      removal {old[i], None, i} when it is shorter. */
  lemma TrailingEntries(oldNode: Node, newNode: Node)
    ensures var r := UpdateVolumes(oldNode, newNode);
      var olds := oldNode.devices;
      var news := newNode.devices;
      var t := Max(|olds|, |news|) - Min(|olds|, |news|);
      && |r| >= t
      && (|news| > |olds| ==> forall k :: |r| - t <= k < |r| ==>
            r[k] == UpdateVolume(None, Some(news[k - |r| + |news|]), k - |r| + |news|, false))
      && (|olds| > |news| ==> forall k :: |r| - t <= k < |r| ==>
            r[k] == UpdateVolume(Some(olds[k - |r| + |olds|]), None, k - |r| + |olds|, false))
  {
    var olds := oldNode.devices;
    var news := newNode.devices;
    var m := Min(|olds|, |news|);
    Layout(oldNode, newNode);
    TrailingUpdatesSpec(olds, news, m, Max(|olds|, |news|));
  }

  /** Two equal versions of a node call for no update at all. */
  lemma SameNodeNoUpdates(node: Node)
    ensures UpdateVolumes(node, node) == []
  {
    var r := UpdateVolumes(node, node);
    if r != [] {
      EntryAt(node, node, 0);
      assert false;
    }
  }

  // ---------------------------------------------------------------------------
  // The wipe list.

  /** The path updateGlusterNode wipes for a volume. It is not the path
      initGlusterNodeVolume mounts the volume at (DeviceDir + name); the
      model keeps the two as the source writes them. */
  function WipePath(v: NodeVolume): string
  {
    "/dev/" + v.meta.name
  }

  /** The paths to wipe: one per entry with a new definition, in order. */
  function WipeList(uvs: seq<UpdateVolume>): seq<string>
  {
    if uvs == [] then []
    else
      var u := uvs[|uvs| - 1];
      WipeList(uvs[..|uvs| - 1]) + (if u.newVol.Some? then [WipePath(u.newVol.value)] else [])
  }

  /** Every new definition in the list is wiped, nothing else is, and
      for volume names without a '/' no wiped path is the path any volume
      is mounted at. */
  lemma {:induction false} WipeListSpec(uvs: seq<UpdateVolume>)
    ensures var r := WipeList(uvs);
      && |r| <= |uvs|
      && (forall u <- uvs :: u.newVol.Some? ==> WipePath(u.newVol.value) in r)
      && (forall p <- r :: exists u <- uvs :: u.newVol.Some? && p == WipePath(u.newVol.value))
  {
    if uvs != [] {
      var init := uvs[..|uvs| - 1];
      WipeListSpec(init);
      assert forall u <- uvs :: u in init || u == uvs[|uvs| - 1];
    }
  }

  /** The wipe list of one entry: its new volume's path, or nothing. */
  lemma WipeListSingle(u: UpdateVolume)
    ensures WipeList([u]) == if u.newVol.Some? then [WipePath(u.newVol.value)] else []
  {
    assert [u][..0] == [];
  }

  /** The wipe list of two lists of entries is the first's paths followed by
      the second's: with WipeListSingle, the list has exactly one path per
      entry with a new volume, in entry order, with no repeat dropped. */
  lemma {:induction false} WipeListAppend(a: seq<UpdateVolume>, b: seq<UpdateVolume>)
    ensures WipeList(a + b) == WipeList(a) + WipeList(b)
    decreases |b|
  {
    if b == [] {
      assert a + b == a;
    } else {
      var init := b[..|b| - 1];
      WipeListAppend(a, init);
      assert (a + b)[..|a + b| - 1] == a + init;
      assert (a + b)[|a + b| - 1] == b[|b| - 1];
    }
  }

  /** For volume names without a '/', as Kubernetes names are, no path in
      the wipe list is the path any volume is mounted at: the wipes of an
      update never reach the devices the pod uses. */
  lemma WipeListMissesMountedPaths(uvs: seq<UpdateVolume>, mounted: seq<NodeVolume>)
    requires forall u <- uvs :: u.newVol.Some? ==> '/' !in u.newVol.value.meta.name
    ensures forall p <- WipeList(uvs), v <- mounted :: p != DevicePath(v)
  {
    WipeListSpec(uvs);
    forall p <- WipeList(uvs), v <- mounted
      ensures p != DevicePath(v)
    {
      var u :| u in uvs && u.newVol.Some? && p == WipePath(u.newVol.value);
      WipePathIsNotMounted(u.newVol.value, v);
    }
  }

  lemma WipePathIsNotMounted(v: NodeVolume, mounted: NodeVolume)
    requires '/' !in v.meta.name
    ensures WipePath(v) != DevicePath(mounted)
  {
    if |WipePath(v)| == |DevicePath(mounted)| {
      assert |v.meta.name| >= 8;
      assert WipePath(v)[12] == v.meta.name[7] != '/';
      assert DevicePath(mounted)[12] == '/';
    }
  }

  // ---------------------------------------------------------------------------
  // The diff methods.

  /** The state-volume entry, marked as such. */
  method StateEntry(oldNode: Node, newNode: Node) returns (uvs: seq<UpdateVolume>)
    ensures uvs == StateUpdates(oldNode, newNode)
  {
    uvs := [];
    var upVol := DiffGlusterNodeVolume(oldNode.stateVolume, newNode.stateVolume, 0);
    if upVol != NoUpdate {
      uvs := uvs + [upVol];
      uvs := uvs[0 := uvs[0].(state := true)];
    }
  }

  /** The loop over the slots both device lists have. */
  method CommonEntries(olds: seq<NodeVolume>, news: seq<NodeVolume>) returns (uvs: seq<UpdateVolume>)
    ensures uvs == CommonUpdates(olds, news, Min(|olds|, |news|))
  {
    uvs := [];
    var i := 0;
    while i < |olds| && i < |news|
      invariant 0 <= i <= Min(|olds|, |news|)
      invariant uvs == CommonUpdates(olds, news, i)
    {
      var upVol := DiffGlusterNodeVolume(Some(olds[i]), Some(news[i]), i);
      if upVol != NoUpdate {
        uvs := uvs + [upVol];
      }
      i := i + 1;
    }
  }

  /** The loops over the slots past the shorter list. */
  method PastShorterEntries(olds: seq<NodeVolume>, news: seq<NodeVolume>) returns (uvs: seq<UpdateVolume>)
    ensures uvs == TrailingUpdates(olds, news, Min(|olds|, |news|), Max(|olds|, |news|))
  {
    uvs := [];
    var m := Min(|olds|, |news|);
    var i := m;
    if |news| != |olds| {
      if |news| > |olds| {
        while i < |news|
          invariant m <= i <= |news|
          invariant uvs == TrailingUpdates(olds, news, m, i)
        {
          uvs := uvs + [UpdateVolume(None, Some(news[i]), i, false)];
          i := i + 1;
        }
      } else if |olds| > |news| {
        while i < |olds|
          invariant m <= i <= |olds|
          invariant uvs == TrailingUpdates(olds, news, m, i)
        {
          uvs := uvs + [UpdateVolume(Some(olds[i]), None, i, false)];
          i := i + 1;
        }
      }
    }
  }

  /** The list-building part of updateGlusterNode. */
  method BuildUpdateVolumes(oldNode: Node, newNode: Node) returns (uvs: seq<UpdateVolume>)
    ensures uvs == UpdateVolumes(oldNode, newNode)
  {
    var head := StateEntry(oldNode, newNode);
    var common := CommonEntries(oldNode.devices, newNode.devices);
    var tail := PastShorterEntries(oldNode.devices, newNode.devices);
    uvs := head + common + tail;
  }

  /** The wipe-list loop of updateGlusterNode. */
  method CollectWipeList(uvs: seq<UpdateVolume>) returns (devices: seq<string>)
    ensures devices == WipeList(uvs)
  {
    devices := [];
    for i := 0 to |uvs|
      invariant devices == WipeList(uvs[..i])
    {
      assert uvs[..i + 1][..i] == uvs[..i];
      if uvs[i].newVol.Some? {
        devices := devices + [WipePath(uvs[i].newVol.value)];
      }
    }
    assert uvs[..|uvs|] == uvs;
  }

  // ---------------------------------------------------------------------------
  // Applying the update of one node.

  /** The Kubernetes store and the heketi server together. */
  datatype Backend = Backend(world: World, remote: Remote)

  datatype BackendOutcome = BackendOutcome(backend: Backend, err: Option<Error>)

  function Observe(api: KubeApi, server: HeketiServer): Backend
    reads api, server
  {
    Backend(api.State(), server.View())
  }

  /** updateGlusterNodeVolume: the resources of the new definition when
      there is one; an old definition is left in place. */
  function VolumeUpdatePlan(u: UpdateVolume): seq<Step>
  {
    if u.newVol.Some? then VolumePlan(u.newVol.value) else []
  }

  /** updateGlusterNodeVolume over the list, stopping at the first error. */
  function VolumesUpdateOutcome(env: Env, w: World, uvs: seq<UpdateVolume>): Outcome
    decreases |uvs|
  {
    if uvs == [] then Outcome(w, None)
    else
      var r := EnsureAll(env, w, VolumeUpdatePlan(uvs[0]));
      if r.err.Some? then r else VolumesUpdateOutcome(env, r.world, uvs[1..])
  }

  /** The fetched deployment carrying the node's pod volumes and its first
      container's volume devices; everything else is kept. */
  function Rewired(d: Deployment, node: Node): (r: Deployment)
    requires |d.template.spec.containers| > 0 && |node.spec.containers| > 0
    ensures r.meta == d.meta && r.replicas == d.replicas && r.selector == d.selector
    ensures r.template.meta == d.template.meta
    ensures r.template.spec.volumes == node.spec.volumes
    ensures |r.template.spec.containers| == |d.template.spec.containers|
    ensures r.template.spec.containers[0].volumeDevices == node.spec.containers[0].volumeDevices
    ensures forall i :: 1 <= i < |r.template.spec.containers| ==> r.template.spec.containers[i] == d.template.spec.containers[i]
  {
    var c0 := d.template.spec.containers[0].(volumeDevices := node.spec.containers[0].volumeDevices);
    d.(template := d.template.(spec := d.template.spec.(
      volumes := node.spec.volumes,
      containers := d.template.spec.containers[0 := c0])))
  }

  /** The middle of updateGlusterNode: the rewired deployment is written
      back and waited for, then the wipe list is wiped when the cluster asks
      for wiping. An empty container list on either side indexes an empty
      slice in the source and is reported as a crash. */
  function RedeployOutcome(env: Env, w: World, wipe: bool, node: Node, d: Deployment, uvs: seq<UpdateVolume>): (r: Outcome)
    ensures r.err.None? ==> |d.template.spec.containers| > 0 && |node.spec.containers| > 0
  {
    if |d.template.spec.containers| == 0 || |node.spec.containers| == 0 then Outcome(w, Some(Crash("no container")))
    else
      var d2 := Rewired(d, node);
      var u := UpdateRaw(env, w, node.meta.namespace, DeploymentObject(d2));
      if u.err.Some? then u
      else
        var e := WaitOutcome(env, u.world.objects[RewiredKey(node, d)].deployment, node.timeout);
        if e.Some? then Outcome(u.world, e)
        else if wipe then WipeOutcome(env, u.world, node, WipeList(uvs))
        else u
  }

  /** When the fetched deployment is what the store holds and rewiring
      changes its template, the wait is for the deployment the update
      returned, whose generation is one more than the fetched one: a status
      that has only observed the deployment before the update never ends
      the wait as complete. */
  lemma RedeployWaitsForNewGeneration(env: Env, w: World, wipe: bool, node: Node, d: Deployment, uvs: seq<UpdateVolume>)
    requires |d.template.spec.containers| > 0 && |node.spec.containers| > 0
    requires RewiredKey(node, d) in w.objects && w.objects[RewiredKey(node, d)] == DeploymentObject(d)
    requires RewiredKey(node, d) !in env.failing && RewiredKey(node, d) !in env.conflicting
    requires !SameDesired(d, Rewired(d, node))
    ensures var waited := Rewired(d, node).(meta := d.meta.(generation := d.meta.generation + 1));
      var r := RedeployOutcome(env, w, wipe, node, d, uvs);
      && (WaitOutcome(env, waited, node.timeout).Some? ==> r.err == WaitOutcome(env, waited, node.timeout))
      && (!wipe ==> r.err == WaitOutcome(env, waited, node.timeout))
      && forall st: DeploymentStatus :: st.observedGeneration <= d.meta.generation ==> !RolloutComplete(st, waited)
  {
  }

  /** The write-back of the rewired deployment can be refused with a
      conflict although the deployment was just read: the conflict is
      returned, nothing is waited for or wiped, and the store is unchanged. */
  lemma RedeployConflict(env: Env, w: World, wipe: bool, node: Node, d: Deployment, uvs: seq<UpdateVolume>)
    requires |d.template.spec.containers| > 0 && |node.spec.containers| > 0
    requires RewiredKey(node, d) in w.objects && RewiredKey(node, d) !in env.failing
    requires RewiredKey(node, d) in env.conflicting
    ensures var r := RedeployOutcome(env, w, wipe, node, d, uvs);
      && r.err == Some(Conflict(RewiredKey(node, d)))
      && r.world == w.(requests := w.requests + [UpdateRequest(RewiredKey(node, d))])
  {
  }

  /** The end of updateGlusterNode: a heketi client is made, the node is
      looked up under the id its deployment's label caches, and the
      devices are added to it. */
  function RefreshDevicesOutcome(env: Env, f: set<RemoteOp>, b: Backend, gc: GlusterCluster, nodeId: string, vds: seq<VolumeDevice>): BackendOutcome
    requires HasHeketi(gc)
  {
    var e := GetError(env, b.world, HeketiKey(gc));
    if e.Some? then BackendOutcome(b, e)
    else
      var r1 := Log(b.remote, NodeInfoCall(nodeId));
      if NodeInfoOp in f || nodeId !in b.remote.topo.nodes then BackendOutcome(b.(remote := r1), Some(RemoteFailed(NodeInfoOp)))
      else
        var a := AddDevicesOutcome(f, r1, b.remote.topo.nodes[nodeId], DevicePaths(vds));
        BackendOutcome(b.(remote := a.remote), a.err)
  }

  /** updateGlusterNode: nothing at all when the list is empty; otherwise
      the deployment is fetched, the new volumes' resources are made, the
      deployment is rewired, and heketi gets the devices. */
  function UpdateNodeOutcome(env: Env, f: set<RemoteOp>, b: Backend, gc: GlusterCluster, oldNode: Node, newNode: Node): BackendOutcome
    requires HasHeketi(gc)
  {
    var uvs := UpdateVolumes(oldNode, newNode);
    var key := NodeKey(newNode);
    var e := GetError(env, b.world, key);
    if uvs == [] then BackendOutcome(b, None)
    else if e.Some? then BackendOutcome(b, e)
    else
      var d := b.world.objects[key].deployment;
      var r1 := VolumesUpdateOutcome(env, b.world, uvs);
      if r1.err.Some? then BackendOutcome(b.(world := r1.world), r1.err)
      else
        var r2 := RedeployOutcome(env, r1.world, gc.spec.value.wipe, newNode, d, uvs);
        if r2.err.Some? then BackendOutcome(b.(world := r2.world), r2.err)
        else
          var d2 := Rewired(d, newNode);
          RefreshDevicesOutcome(env, f, b.(world := r2.world), gc, Label(d2.meta.labels, NodeIdLabel),
            d2.template.spec.containers[0].volumeDevices)
  }

  // ---------------------------------------------------------------------------
  // Updating the cluster.

  /** The spec fields updateGlusterCluster dereferences. */
  predicate Updatable(gc: GlusterCluster)
  {
    HasHeketi(gc) && gc.spec.value.glusterfs.Some?
  }

  function FirstError(a: Option<Error>, b: Option<Error>): Option<Error>
  {
    if a.Some? then a else b
  }

  /** The goroutine of a first pass: the heketi configuration, then the
      heketi node's deployment, which runs even when the configuration
      failed; the first error is the one reported. */
  function HeketiSetupOutcome(env: Env, w: World, gc: GlusterCluster, encoded: Option<string>): Outcome
    requires HasHeketi(gc)
  {
    var node := gc.spec.value.heketi.value.node.value;
    var c := HeketiConfigOutcome(env, w, node, encoded);
    var d := DeployNodeOutcome(env, c.world, gc.spec.value.wipe, node);
    Outcome(d.world, FirstError(c.err, d.err))
  }

  /** One deployNode goroutine per node: every one runs whatever the others
      report, and the error reported is the first in launch order, after
      the error `first` of the goroutines launched before them. */
  function DeployAllOutcome(env: Env, w: World, wipe: bool, nodes: seq<Node>, first: Option<Error>): Outcome
    decreases |nodes|, 1
  {
    if nodes == [] then Outcome(w, first)
    else DeployFirstOutcome(env, w, wipe, nodes, first)
  }

  /** The first goroutine of a non-empty launch, then the others. */
  function DeployFirstOutcome(env: Env, w: World, wipe: bool, nodes: seq<Node>, first: Option<Error>): Outcome
    requires nodes != []
    decreases |nodes|, 0
  {
    var r := DeployNodeOutcome(env, w, wipe, nodes[0]);
    DeployAllOutcome(env, r.world, wipe, nodes[1..], FirstError(first, r.err))
  }

  /** The walk over the nodes both lists have, from slot i: a node that
      differs from its old version is updated, and the first error ends the
      walk. */
  function WalkOutcome(env: Env, f: set<RemoteOp>, b: Backend, gc: GlusterCluster, olds: seq<Node>, news: seq<Node>, i: nat): BackendOutcome
    requires HasHeketi(gc) && i <= Min(|olds|, |news|)
    decreases Min(|olds|, |news|) - i, 1
  {
    if i == Min(|olds|, |news|) then BackendOutcome(b, None)
    else WalkSlotOutcome(env, f, b, gc, olds, news, i)
  }

  /** Slot i of the walk, then the rest of it. */
  function WalkSlotOutcome(env: Env, f: set<RemoteOp>, b: Backend, gc: GlusterCluster, olds: seq<Node>, news: seq<Node>, i: nat): BackendOutcome
    requires HasHeketi(gc) && i < Min(|olds|, |news|)
    decreases Min(|olds|, |news|) - i, 0
  {
    if olds[i] == news[i] then WalkOutcome(env, f, b, gc, olds, news, i + 1)
    else
      var r := UpdateNodeOutcome(env, f, b, gc, olds[i], news[i]);
      if r.err.Some? then r else WalkOutcome(env, f, r.backend, gc, olds, news, i + 1)
  }

  /** The nodes a later pass deploys: those past the end of the old list. */
  function NewNodes(olds: seq<Node>, news: seq<Node>): (r: seq<Node>)
    ensures |olds| + |r| == Max(|olds|, |news|)
    ensures forall j :: 0 <= j < |r| ==> r[j] == news[|olds| + j]
  {
    if |news| > |olds| then news[|olds|..] else []
  }

  /** AddNode for every node in order, stopping at the first error. */
  function AddNodesOutcome(env: Env, f: set<RemoteOp>, s: Session, nodes: seq<Node>): SessionOutcome
    decreases |nodes|
  {
    if nodes == [] then SessionOutcome(s, None)
    else
      var r := AddNodeOutcome(env, f, s, nodes[0]);
      if r.err.Some? then r else AddNodesOutcome(env, f, r.session, nodes[1..])
  }

  /** The heketi part of updateGlusterCluster: a client, the cluster, then
      the nodes. */
  function RegisterAllOutcome(env: Env, f: set<RemoteOp>, b: Backend, gc: GlusterCluster, nodes: seq<Node>): BackendOutcome
    requires HasHeketi(gc)
  {
    var e := GetError(env, b.world, HeketiKey(gc));
    if e.Some? then BackendOutcome(b, e)
    else
      var hd := b.world.objects[HeketiKey(gc)].deployment;
      var s := Session(b.world, b.remote, Label(hd.meta.labels, ClusterIdLabel), hd);
      var c := CreateClusterOutcome(env, f, s);
      var r := if c.err.Some? then c else AddNodesOutcome(env, f, c.session, nodes);
      BackendOutcome(Backend(r.session.world, r.session.remote), r.err)
  }

  /** The end of updateGlusterCluster: the node goroutines when gluster is
      native, the collection of their errors, and the registration. */
  function FinishOutcome(env: Env, f: set<RemoteOp>, b: Backend, gc: GlusterCluster, nodes: seq<Node>, first: Option<Error>): BackendOutcome
    requires Updatable(gc)
  {
    var spec := gc.spec.value;
    var dep := if spec.glusterfs.value.native then DeployAllOutcome(env, b.world, spec.wipe, nodes, first) else Outcome(b.world, first);
    if dep.err.Some? then BackendOutcome(b.(world := dep.world), dep.err)
    else RegisterAllOutcome(env, f, b.(world := dep.world), gc, nodes)
  }

  /** updateGlusterCluster for the initialized previous version (None on a
      first pass) and the initialized new version of a cluster. */
  function UpdateClusterOutcome(env: Env, f: set<RemoteOp>, encoded: Option<string>, b: Backend,
                                oldCluster: Option<GlusterCluster>, newCluster: GlusterCluster): BackendOutcome
    requires Updatable(newCluster) && (oldCluster.Some? ==> oldCluster.value.spec.Some?)
  {
    var r0 := EnsureAll(env, b.world, ServicePlan(newCluster));
    var b0 := b.(world := r0.world);
    if r0.err.Some? then BackendOutcome(b0, r0.err)
    else if oldCluster.None? then
      var h := HeketiSetupOutcome(env, r0.world, newCluster, encoded);
      FinishOutcome(env, f, b.(world := h.world), newCluster, newCluster.spec.value.nodes, h.err)
    else
      var olds := oldCluster.value.spec.value.nodes;
      var news := newCluster.spec.value.nodes;
      if olds == news then FinishOutcome(env, f, b0, newCluster, [], None)
      else
        var walk := WalkOutcome(env, f, b0, newCluster, olds, news, 0);
        if walk.err.Some? then walk
        else FinishOutcome(env, f, walk.backend, newCluster, NewNodes(olds, news), None)
  }

  // ---------------------------------------------------------------------------
  // Properties of the update.

  /** A node whose update list is empty is not touched at all: no fetch, no
      write, no heketi call. A node whose definition did not change is one. */
  lemma UnchangedNodeUntouched(env: Env, f: set<RemoteOp>, b: Backend, gc: GlusterCluster, oldNode: Node, newNode: Node)
    requires HasHeketi(gc)
    ensures UpdateVolumes(oldNode, newNode) == [] ==>
      UpdateNodeOutcome(env, f, b, gc, oldNode, newNode) == BackendOutcome(b, None)
    ensures oldNode == newNode ==> UpdateNodeOutcome(env, f, b, gc, oldNode, newNode) == BackendOutcome(b, None)
  {
    if oldNode == newNode {
      SameNodeNoUpdates(newNode);
    }
  }

  /** Updating volumes never removes or replaces a stored object, and
      entries without a new definition store nothing. */
  lemma {:induction false} VolumesUpdateKeeps(env: Env, w: World, uvs: seq<UpdateVolume>)
    ensures var r := VolumesUpdateOutcome(env, w, uvs);
      && (forall k <- w.objects :: k in r.world.objects && r.world.objects[k] == w.objects[k])
      && ((forall u <- uvs :: u.newVol.None?) ==> r.world.objects == w.objects)
    decreases |uvs|
  {
    if uvs != [] {
      var r0 := EnsureAll(env, w, VolumeUpdatePlan(uvs[0]));
      EnsureAllKeeps(env, w, VolumeUpdatePlan(uvs[0]));
      if r0.err.None? {
        VolumesUpdateKeeps(env, r0.world, uvs[1..]);
        if forall u <- uvs :: u.newVol.None? {
          assert uvs[0] in uvs;
          assert forall u <- uvs[1..] :: u in uvs;
        }
      }
    }
  }

  /** The key the rewired deployment is written back under. */
  function RewiredKey(node: Node, d: Deployment): ObjectKey
  {
    ObjectKey(DeploymentKind, node.meta.namespace, d.meta.name)
  }

  /** A successful update of a changed node leaves the fetched deployment,
      rewired to the new definition's volumes and devices, in the store. */
  lemma UpdateStoresRewired(env: Env, f: set<RemoteOp>, b: Backend, gc: GlusterCluster, oldNode: Node, newNode: Node)
    requires HasHeketi(gc)
    requires UpdateVolumes(oldNode, newNode) != []
    requires UpdateNodeOutcome(env, f, b, gc, oldNode, newNode).err.None?
    ensures NodeKey(newNode) in b.world.objects && b.world.objects[NodeKey(newNode)].DeploymentObject?
    ensures var d := b.world.objects[NodeKey(newNode)].deployment;
      var objects := UpdateNodeOutcome(env, f, b, gc, oldNode, newNode).backend.world.objects;
      && |d.template.spec.containers| > 0 && |newNode.spec.containers| > 0
      && RewiredKey(newNode, d) in objects
      && objects[RewiredKey(newNode, d)].DeploymentObject?
      && AsAdmitted(objects[RewiredKey(newNode, d)].deployment, Rewired(d, newNode))
  {
    var d := b.world.objects[NodeKey(newNode)].deployment;
    var uvs := UpdateVolumes(oldNode, newNode);
    var r1 := VolumesUpdateOutcome(env, b.world, uvs);
    var r2 := RedeployOutcome(env, r1.world, gc.spec.value.wipe, newNode, d, uvs);
    var u := UpdateRaw(env, r1.world, newNode.meta.namespace, DeploymentObject(Rewired(d, newNode)));
    var pods := PodsNamed(env.pods, newNode.meta.namespace, newNode.meta.name);
    if gc.spec.value.wipe && newNode.meta.namespace !in env.listFailing && pods != [] {
      ExecAllRunsInOrder(env, u.world, pods[0].name, WipeList(uvs));
    }
    assert r2.world.objects == u.world.objects;
  }

  /** A successful update of a changed node ends with one NodeInfo call for
      the id its deployment's label caches, then one DeviceAdd per device of
      the new definition's first container that heketi did not know. */
  lemma UpdateOffersNewDevices(env: Env, f: set<RemoteOp>, b: Backend, gc: GlusterCluster, oldNode: Node, newNode: Node)
    requires HasHeketi(gc) && Valid(b.remote.topo)
    requires UpdateVolumes(oldNode, newNode) != []
    requires UpdateNodeOutcome(env, f, b, gc, oldNode, newNode).err.None?
    ensures NodeKey(newNode) in b.world.objects && b.world.objects[NodeKey(newNode)].DeploymentObject?
    ensures |newNode.spec.containers| > 0
    ensures var id := Label(b.world.objects[NodeKey(newNode)].deployment.meta.labels, NodeIdLabel);
      && id in b.remote.topo.nodes
      && UpdateNodeOutcome(env, f, b, gc, oldNode, newNode).backend.remote.calls
           == b.remote.calls + [NodeInfoCall(id)]
              + DeviceCalls(b.remote.topo.nodes[id].id,
                  Missing(DevicePaths(newNode.spec.containers[0].volumeDevices), b.remote.topo.nodes[id].devices))
  {
    var d := b.world.objects[NodeKey(newNode)].deployment;
    var id := Label(d.meta.labels, NodeIdLabel);
    var r1 := Log(b.remote, NodeInfoCall(id));
    AddDevicesCalls(f, r1, b.remote.topo.nodes[id], DevicePaths(newNode.spec.containers[0].volumeDevices));
  }

  /** The walk over two equal node lists updates nothing. */
  lemma {:induction false} WalkOverEqualListsIsIdle(env: Env, f: set<RemoteOp>, b: Backend, gc: GlusterCluster, nodes: seq<Node>, i: nat)
    requires HasHeketi(gc) && i <= |nodes|
    ensures WalkOutcome(env, f, b, gc, nodes, nodes, i) == BackendOutcome(b, None)
    decreases |nodes| - i
  {
    if i < |nodes| {
      WalkOverEqualListsIsIdle(env, f, b, gc, nodes, i + 1);
    }
  }

  /** Every node goroutine runs whatever the earlier ones reported: the
      store does not depend on an earlier error, and the error reported is
      the earlier one when there was one. */
  lemma {:induction false} DeployAllFirstError(env: Env, w: World, wipe: bool, nodes: seq<Node>, first: Option<Error>)
    ensures var r0 := DeployAllOutcome(env, w, wipe, nodes, None);
      DeployAllOutcome(env, w, wipe, nodes, first) == Outcome(r0.world, FirstError(first, r0.err))
    decreases |nodes|
  {
    if nodes != [] {
      var r := DeployNodeOutcome(env, w, wipe, nodes[0]);
      DeployAllFirstError(env, r.world, wipe, nodes[1..], FirstError(first, r.err));
      DeployAllFirstError(env, r.world, wipe, nodes[1..], r.err);
    }
  }

  /** An error reported before the registration is the error of the whole
      update, and heketi is then never called. */
  lemma EarlierErrorSkipsRegistration(env: Env, f: set<RemoteOp>, b: Backend, gc: GlusterCluster, nodes: seq<Node>, first: Option<Error>)
    requires Updatable(gc) && first.Some?
    ensures var r := FinishOutcome(env, f, b, gc, nodes, first);
      r.err == first && r.backend.remote == b.remote
  {
    DeployAllFirstError(env, b.world, gc.spec.value.wipe, nodes, first);
  }

  /** On a first pass, a heketi configuration that cannot be encoded or
      stored is the error reported, heketi is not called, and yet the heketi
      node and, for native gluster, every node are deployed as if it had
      not failed. */
  lemma FirstPassConfigError(env: Env, f: set<RemoteOp>, encoded: Option<string>, b: Backend, gc: GlusterCluster)
    requires Updatable(gc)
    requires EnsureAll(env, b.world, ServicePlan(gc)).err.None?
    requires HeketiConfigOutcome(env, EnsureAll(env, b.world, ServicePlan(gc)).world,
               gc.spec.value.heketi.value.node.value, encoded).err.Some?
    ensures var spec := gc.spec.value;
      var node := spec.heketi.value.node.value;
      var c := HeketiConfigOutcome(env, EnsureAll(env, b.world, ServicePlan(gc)).world, node, encoded);
      var h := DeployNodeOutcome(env, c.world, spec.wipe, node);
      var r := UpdateClusterOutcome(env, f, encoded, b, None, gc);
      && r.err == c.err
      && r.backend.remote == b.remote
      && r.backend.world == (if spec.glusterfs.value.native then DeployAllOutcome(env, h.world, spec.wipe, spec.nodes, None).world else h.world)
  {
    var spec := gc.spec.value;
    var node := spec.heketi.value.node.value;
    var c := HeketiConfigOutcome(env, EnsureAll(env, b.world, ServicePlan(gc)).world, node, encoded);
    var h := DeployNodeOutcome(env, c.world, spec.wipe, node);
    EarlierErrorSkipsRegistration(env, f, b.(world := h.world), gc, spec.nodes, c.err);
    DeployAllFirstError(env, h.world, spec.wipe, spec.nodes, c.err);
  }

  // ---------------------------------------------------------------------------
  // The methods of update.go.

  method UpdateGlusterNodeVolume(api: KubeApi, u: UpdateVolume) returns (err: Option<Error>)
    modifies api
    ensures Outcome(api.State(), err) == EnsureAll(api.env, old(api.State()), VolumeUpdatePlan(u))
  {
    err := None;
    if u.newVol.Some? {
      err := CreateVolumeResources(api, u.newVol.value);
    }
  }

  /** The loop of updateGlusterNode over the list. */
  method UpdateNodeVolumes(api: KubeApi, uvs: seq<UpdateVolume>) returns (err: Option<Error>)
    modifies api
    ensures Outcome(api.State(), err) == VolumesUpdateOutcome(api.env, old(api.State()), uvs)
  {
    ghost var w0 := api.State();
    var i := 0;
    while i < |uvs|
      invariant 0 <= i <= |uvs|
      invariant VolumesUpdateOutcome(api.env, w0, uvs) == VolumesUpdateOutcome(api.env, api.State(), uvs[i..])
    {
      assert uvs[i..][1..] == uvs[i + 1..];
      err := UpdateGlusterNodeVolume(api, uvs[i]);
      if err.Some? {
        return;
      }
      i := i + 1;
    }
    err := None;
  }

  method Redeploy(api: KubeApi, wipe: bool, node: Node, d: Deployment, uvs: seq<UpdateVolume>) returns (err: Option<Error>)
    modifies api
    ensures Outcome(api.State(), err) == RedeployOutcome(api.env, old(api.State()), wipe, node, d, uvs)
  {
    if |d.template.spec.containers| == 0 || |node.spec.containers| == 0 {
      return Some(Crash("no container"));
    }
    var spec := d.template.spec.(volumes := node.spec.volumes);
    spec := spec.(containers := spec.containers[0 := spec.containers[0].(volumeDevices := node.spec.containers[0].volumeDevices)]);
    var d2 := d.(template := d.template.(spec := spec));
    assert d2 == Rewired(d, node);
    var updated;
    updated, err := api.Update(node.meta.namespace, DeploymentObject(d2));
    if err.Some? {
      return;
    }
    err := WaitForDeployment(api, updated.value.deployment, node.timeout);
    if err.Some? {
      return;
    }
    if wipe {
      var devices := CollectWipeList(uvs);
      err := WipeDevices(api, node, devices);
    }
  }

  method RefreshDevices(api: KubeApi, server: HeketiServer, gc: GlusterCluster, nodeId: string, vds: seq<VolumeDevice>) returns (err: Option<Error>)
    requires HasHeketi(gc)
    modifies server
    ensures BackendOutcome(Observe(api, server), err) == RefreshDevicesOutcome(api.env, server.failing, old(Observe(api, server)), gc, nodeId, vds)
  {
    var client;
    client, err := NewClient(gc, api, server);
    if err.Some? {
      return;
    }
    var info;
    info, err := client.GetNode(nodeId);
    if err.Some? {
      return;
    }
    err := client.AddDevices(vds, info);
  }

  method UpdateGlusterNode(api: KubeApi, server: HeketiServer, gc: GlusterCluster, oldNode: Node, newNode: Node) returns (err: Option<Error>)
    requires HasHeketi(gc)
    modifies api, server
    ensures BackendOutcome(Observe(api, server), err) == UpdateNodeOutcome(api.env, server.failing, old(Observe(api, server)), gc, oldNode, newNode)
  {
    var uvs := BuildUpdateVolumes(oldNode, newNode);
    if |uvs| == 0 {
      return None;
    }
    var found;
    found, err := api.GetDeployment(newNode.meta.namespace, newNode.meta.name);
    if err.Some? {
      return;
    }
    var d := found.value;
    err := UpdateNodeVolumes(api, uvs);
    if err.Some? {
      return;
    }
    err := Redeploy(api, gc.spec.value.wipe, newNode, d, uvs);
    if err.Some? {
      return;
    }
    var d2 := Rewired(d, newNode);
    err := RefreshDevices(api, server, gc, Label(d2.meta.labels, NodeIdLabel), d2.template.spec.containers[0].volumeDevices);
  }

  /** The goroutine of a first pass. */
  method HeketiSetup(api: KubeApi, gc: GlusterCluster, encoded: Option<string>) returns (err: Option<Error>)
    requires HasHeketi(gc)
    modifies api
    ensures Outcome(api.State(), err) == HeketiSetupOutcome(api.env, old(api.State()), gc, encoded)
  {
    var node := gc.spec.value.heketi.value.node.value;
    var configErr := CreateHeketiConfig(api, node, encoded);
    var deployErr := DeployNode(api, gc, node);
    err := FirstError(configErr, deployErr);
  }

  /** The node goroutines, run one after the other in launch order. */
  method DeployAll(api: KubeApi, gc: GlusterCluster, nodes: seq<Node>, first: Option<Error>) returns (err: Option<Error>)
    requires gc.spec.Some?
    modifies api
    ensures Outcome(api.State(), err) == DeployAllOutcome(api.env, old(api.State()), gc.spec.value.wipe, nodes, first)
  {
    ghost var env, wipe := api.env, gc.spec.value.wipe;
    ghost var goal := DeployAllOutcome(env, api.State(), wipe, nodes, first);
    err := first;
    var i := 0;
    assert nodes[0..] == nodes;
    while i < |nodes|
      invariant 0 <= i <= |nodes|
      invariant goal == DeployAllOutcome(env, api.State(), wipe, nodes[i..], err)
    {
      err := Launch(api, gc, nodes, i, err);
      i := i + 1;
    }
  }

  /** Goroutine i of the deploy pass: node i is deployed, and its error
      joins the earlier one. */
  method Launch(api: KubeApi, gc: GlusterCluster, nodes: seq<Node>, i: nat, first: Option<Error>) returns (err: Option<Error>)
    requires gc.spec.Some? && i < |nodes|
    modifies api
    ensures DeployAllOutcome(api.env, api.State(), gc.spec.value.wipe, nodes[i + 1..], err)
      == DeployAllOutcome(api.env, old(api.State()), gc.spec.value.wipe, nodes[i..], first)
  {
    ghost var w := api.State();
    var e := DeployNode(api, gc, nodes[i]);
    DeployAllStep(api.env, w, gc.spec.value.wipe, nodes[i..], first);
    assert nodes[i..][1..] == nodes[i + 1..];
    err := FirstError(first, e);
  }

  /** One launch of the deploy pass. */
  lemma DeployAllStep(env: Env, w: World, wipe: bool, nodes: seq<Node>, first: Option<Error>)
    requires nodes != []
    ensures var r := DeployNodeOutcome(env, w, wipe, nodes[0]);
      DeployAllOutcome(env, w, wipe, nodes, first) == DeployAllOutcome(env, r.world, wipe, nodes[1..], FirstError(first, r.err))
  {
  }

  /** The walk over the common prefix of the node lists. */
  method WalkNodes(api: KubeApi, server: HeketiServer, gc: GlusterCluster, olds: seq<Node>, news: seq<Node>) returns (err: Option<Error>)
    requires HasHeketi(gc)
    modifies api, server
    ensures BackendOutcome(Observe(api, server), err) == WalkOutcome(api.env, server.failing, old(Observe(api, server)), gc, olds, news, 0)
  {
    ghost var goal := WalkOutcome(api.env, server.failing, Observe(api, server), gc, olds, news, 0);
    err := None;
    var i := 0;
    while i < |olds| && i < |news| && err.None?
      invariant 0 <= i <= Min(|olds|, |news|)
      invariant err.None? ==> goal == WalkOutcome(api.env, server.failing, Observe(api, server), gc, olds, news, i)
      invariant err.Some? ==> goal == BackendOutcome(Observe(api, server), err)
    {
      err := WalkSlot(api, server, gc, olds, news, i);
      i := i + 1;
    }
  }

  /** One slot of the walk: a node that differs from its old version is
      updated; an error is the walk's outcome, otherwise the walk goes on
      from the next slot. */
  method WalkSlot(api: KubeApi, server: HeketiServer, gc: GlusterCluster, olds: seq<Node>, news: seq<Node>, i: nat) returns (err: Option<Error>)
    requires HasHeketi(gc) && i < Min(|olds|, |news|)
    modifies api, server
    ensures err.Some? ==> BackendOutcome(Observe(api, server), err) == WalkOutcome(api.env, server.failing, old(Observe(api, server)), gc, olds, news, i)
    ensures err.None? ==>
      WalkOutcome(api.env, server.failing, Observe(api, server), gc, olds, news, i + 1)
        == WalkOutcome(api.env, server.failing, old(Observe(api, server)), gc, olds, news, i)
  {
    WalkStep(api.env, server.failing, Observe(api, server), gc, olds, news, i);
    err := None;
    if olds[i] != news[i] {
      err := UpdateGlusterNode(api, server, gc, olds[i], news[i]);
    }
  }

  /** One slot of the walk. */
  lemma WalkStep(env: Env, f: set<RemoteOp>, b: Backend, gc: GlusterCluster, olds: seq<Node>, news: seq<Node>, i: nat)
    requires HasHeketi(gc) && i < Min(|olds|, |news|)
    ensures olds[i] == news[i] ==> WalkOutcome(env, f, b, gc, olds, news, i) == WalkOutcome(env, f, b, gc, olds, news, i + 1)
    ensures olds[i] != news[i] ==>
      var r := UpdateNodeOutcome(env, f, b, gc, olds[i], news[i]);
      WalkOutcome(env, f, b, gc, olds, news, i) == (if r.err.Some? then r else WalkOutcome(env, f, r.backend, gc, olds, news, i + 1))
  {
  }

  /** The nodes past the end of the old list, in order. */
  method SelectNewNodes(olds: seq<Node>, news: seq<Node>) returns (nodes: seq<Node>)
    ensures |nodes| == (if |news| > |olds| then |news| - |olds| else 0)
    ensures forall j :: 0 <= j < |nodes| ==> nodes[j] == news[|olds| + j]
  {
    nodes := [];
    var i := Min(|olds|, |news|);
    if |news| != |olds| {
      if |news| > |olds| {
        while i < |news|
          invariant |olds| <= i <= |news|
          invariant |nodes| == i - |olds|
          invariant forall j :: 0 <= j < |nodes| ==> nodes[j] == news[|olds| + j]
        {
          nodes := nodes + [news[i]];
          i := i + 1;
        }
      }
    }
  }

  /** The heketi part of updateGlusterCluster. */
  method RegisterNodes(api: KubeApi, server: HeketiServer, gc: GlusterCluster, nodes: seq<Node>) returns (err: Option<Error>)
    requires HasHeketi(gc)
    modifies api, server
    ensures BackendOutcome(Observe(api, server), err) == RegisterAllOutcome(api.env, server.failing, old(Observe(api, server)), gc, nodes)
  {
    var client;
    client, err := NewClient(gc, api, server);
    if err.Some? {
      return;
    }
    err := client.CreateCluster();
    if err.Some? {
      return;
    }
    ghost var s1 := client.State();
    var i := 0;
    while i < |nodes|
      invariant 0 <= i <= |nodes|
      invariant AddNodesOutcome(api.env, server.failing, s1, nodes)
        == AddNodesOutcome(api.env, server.failing, client.State(), nodes[i..])
    {
      assert nodes[i..][1..] == nodes[i + 1..];
      err := client.AddNode(nodes[i]);
      if err.Some? {
        return;
      }
      i := i + 1;
    }
    err := None;
  }

  method Finish(api: KubeApi, server: HeketiServer, gc: GlusterCluster, nodes: seq<Node>, first: Option<Error>) returns (err: Option<Error>)
    requires Updatable(gc)
    modifies api, server
    ensures BackendOutcome(Observe(api, server), err) == FinishOutcome(api.env, server.failing, old(Observe(api, server)), gc, nodes, first)
  {
    err := first;
    if gc.spec.value.glusterfs.value.native {
      err := DeployAll(api, gc, nodes, first);
    }
    if err.Some? {
      return;
    }
    err := RegisterNodes(api, server, gc, nodes);
  }

  /** updateGlusterCluster; `encoded` is the outcome of encoding the heketi
      configuration, which the source does inside createHeketiConfig. */
  method UpdateGlusterCluster(api: KubeApi, server: HeketiServer, encoded: Option<string>,
                              oldCluster: Option<GlusterCluster>, newCluster: GlusterCluster) returns (err: Option<Error>)
    requires Updatable(newCluster) && (oldCluster.Some? ==> oldCluster.value.spec.Some?)
    modifies api, server
    ensures BackendOutcome(Observe(api, server), err)
      == UpdateClusterOutcome(api.env, server.failing, encoded, old(Observe(api, server)), oldCluster, newCluster)
  {
    err := CreateService(api, newCluster);
    if err.Some? {
      return;
    }
    var spec := newCluster.spec.value;
    var first: Option<Error> := None;
    var newNodes: seq<Node> := [];
    if oldCluster.None? {
      first := HeketiSetup(api, newCluster, encoded);
      newNodes := spec.nodes;
    } else if oldCluster.value.spec.value.nodes != spec.nodes {
      var olds := oldCluster.value.spec.value.nodes;
      err := WalkNodes(api, server, newCluster, olds, spec.nodes);
      if err.Some? {
        return;
      }
      newNodes := SelectNewNodes(olds, spec.nodes);
      assert newNodes == NewNodes(olds, spec.nodes);
    }
    err := Finish(api, server, newCluster, newNodes, first);
  }
}
