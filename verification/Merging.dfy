/** Joining the managed list into the snapshot of its interface. */
module Merging {
  import opened Prelude
  import opened Text
  import opened Keys
  import opened Sorting
  import opened Peers
  import opened Snapshots

  /** What the managed record adds to an entry; nothing else of the entry changes. */
  function Overlay(s: PeerSnapshot, m: Peer): PeerSnapshot
  {
    s.(managedBy := MANAGED_BY, managedName := m.name, configuredAllowedIPs := m.allowedIPs, enabled := Some(m.enabled))
  }

  function Blank(publicKey: string): PeerSnapshot
  {
    PeerSnapshot(publicKey, None, [], None, "0", "0", 0, "", "", [], None)
  }

  function FirstEntry(entries: seq<PeerSnapshot>, publicKey: string): (r: Option<nat>)
    ensures r.Some? ==> r.value < |entries| && entries[r.value].publicKey == publicKey
    ensures r.Some? ==> forall i :: 0 <= i < r.value ==> entries[i].publicKey != publicKey
    ensures r.None? ==> forall i :: 0 <= i < |entries| ==> entries[i].publicKey != publicKey
  {
    if entries == [] then None
    else if entries[0].publicKey == publicKey then Some(0)
    else
      match FirstEntry(entries[1..], publicKey)
      case None =>
        assert forall i :: 0 < i < |entries| ==> entries[i] == entries[1..][i - 1];
        None
      case Some(i) =>
        assert forall j :: 0 < j < |entries| ==> entries[j] == entries[1..][j - 1];
        Some(i + 1)
  }

  // ---- the join, entry by entry ----

  /** Entry `j` of the device after the join: the first of its key carries the managed record of that key, if any. */
  function Joined(entries: seq<PeerSnapshot>, managed: seq<Peer>, j: nat): PeerSnapshot
    requires j < |entries|
  {
    match FindPeer(managed, entries[j].publicKey)
    case None => entries[j]
    case Some(m) =>
      if FirstEntry(entries, entries[j].publicKey) == Some(j) then Overlay(entries[j], managed[m]) else entries[j]
  }

  /** The entry of a managed record that the device does not have. */
  function NewEntry(entries: seq<PeerSnapshot>, m: Peer): seq<PeerSnapshot>
  {
    if FirstEntry(entries, m.publicKey).None? then [Overlay(Blank(m.publicKey), m)] else []
  }

  /** The managed records that the device does not have, in order. */
  function Missing(entries: seq<PeerSnapshot>, managed: seq<Peer>): (r: seq<PeerSnapshot>)
  {
    if managed == [] then []
    else
      var n := |managed| - 1;
      Missing(entries, managed[..n])
      + NewEntry(entries, managed[n])
  }

  function Known(entries: seq<PeerSnapshot>, managed: seq<Peer>): (r: seq<PeerSnapshot>)
    ensures |r| == |entries|
    ensures forall j :: 0 <= j < |entries| ==> r[j] == Joined(entries, managed, j)
  {
    seq(|entries|, j requires 0 <= j < |entries| => Joined(entries, managed, j))
  }

  /** The device's entries after the join, before they are sorted. */
  function Join(entries: seq<PeerSnapshot>, managed: seq<Peer>): (r: seq<PeerSnapshot>)
  {
    Known(entries, managed) + Missing(entries, managed)
  }

  predicate DistinctKeys(managed: seq<Peer>)
  {
    forall i, j :: 0 <= i < j < |managed| ==> managed[i].publicKey != managed[j].publicKey
  }

  // ---- the loop computes it ----

  lemma {:induction false} MissingKeys(entries: seq<PeerSnapshot>, managed: seq<Peer>, k: string)
    requires FindPeer(managed, k).None?
    ensures forall i :: 0 <= i < |Missing(entries, managed)| ==> Missing(entries, managed)[i].publicKey != k
    decreases |managed|
  {
    if managed != [] {
      var n := |managed| - 1;
      MissingKeys(entries, managed[..n], k);
    }
  }

  lemma FoundBefore(managed: seq<Peer>, i: nat, k: string)
    requires i < |managed| && DistinctKeys(managed)
    ensures FindPeer(managed[..i + 1], k) ==
      if k == managed[i].publicKey then Some(i) else FindPeer(managed[..i], k)
    ensures FindPeer(managed[..i], managed[i].publicKey).None?
  {
    hide FindPeer;
    var before, after := managed[..i], managed[..i + 1];
    assert after[i] == managed[i];
    match FindPeer(after, k)
    case Some(j) =>
      if k != managed[i].publicKey {
        assert before[j].publicKey == k;
        assert FindPeer(before, k).Some?;
        var l := FindPeer(before, k).value;
        assert after[l].publicKey == k;
      }
    case None =>
      forall l | 0 <= l < |before| ensures before[l].publicKey != k {
        assert after[l] == before[l];
      }
  }

  lemma JoinedKey(entries: seq<PeerSnapshot>, managed: seq<Peer>, j: nat)
    requires j < |entries|
    ensures Joined(entries, managed, j).publicKey == entries[j].publicKey
  {
  }

  /** Where the next record's entry is found among those joined so far. */
  lemma FirstInJoin(entries: seq<PeerSnapshot>, managed: seq<Peer>, k: string)
    requires FindPeer(managed, k).None?
    ensures FirstEntry(Join(entries, managed), k) == FirstEntry(entries, k)
  {
    hide Missing, Joined, FindPeer;
    var joined := Join(entries, managed);
    MissingKeys(entries, managed, k);
    forall j | 0 <= j < |entries| ensures joined[j].publicKey == entries[j].publicKey {
      JoinedKey(entries, managed, j);
    }
    match FirstEntry(entries, k)
    case Some(i) => assert joined[i].publicKey == k;
    case None =>
      forall j | 0 <= j < |joined| ensures joined[j].publicKey != k {
        if j >= |entries| {
          assert joined[j] == Missing(entries, managed)[j - |entries|];
        }
      }
  }

  lemma FirstHasKey(entries: seq<PeerSnapshot>, k: string)
    requires FirstEntry(entries, k).Some?
    ensures entries[FirstEntry(entries, k).value].publicKey == k
  {
  }

  lemma JoinedNext(entries: seq<PeerSnapshot>, managed: seq<Peer>, i: nat, j: nat)
    requires i < |managed| && DistinctKeys(managed) && j < |entries|
    ensures Joined(entries, managed[..i + 1], j) ==
      if FirstEntry(entries, managed[i].publicKey) == Some(j) then Overlay(Joined(entries, managed[..i], j), managed[i])
      else Joined(entries, managed[..i], j)
  {
    hide FindPeer, FirstEntry;
    FoundBefore(managed, i, entries[j].publicKey);
    if FirstEntry(entries, managed[i].publicKey) == Some(j) {
      FirstHasKey(entries, managed[i].publicKey);
    }
  }

  /** One record joined to the entries so far. */
  function JoinOne(entries: seq<PeerSnapshot>, m: Peer): seq<PeerSnapshot>
  {
    match FirstEntry(entries, m.publicKey)
    case None => entries + [Overlay(Blank(m.publicKey), m)]
    case Some(i) => entries[i := Overlay(entries[i], m)]
  }

  lemma FirstInRange(entries: seq<PeerSnapshot>, k: string)
    ensures FirstEntry(entries, k).Some? ==> FirstEntry(entries, k).value < |entries|
  {
  }

  lemma KnownStep(entries: seq<PeerSnapshot>, managed: seq<Peer>, i: nat)
    requires i < |managed| && DistinctKeys(managed)
    ensures var before, m := Known(entries, managed[..i]), managed[i];
      Known(entries, managed[..i + 1]) ==
        match FirstEntry(entries, m.publicKey) case None => before case Some(f) => before[f := Overlay(before[f], m)]
  {
    hide Joined, DistinctKeys, FirstEntry;
    FirstInRange(entries, managed[i].publicKey);
    forall j | 0 <= j < |entries|
      ensures Joined(entries, managed[..i + 1], j) ==
        if FirstEntry(entries, managed[i].publicKey) == Some(j)
        then Overlay(Joined(entries, managed[..i], j), managed[i])
        else Joined(entries, managed[..i], j)
    {
      JoinedNext(entries, managed, i, j);
    }
  }

  lemma MissingStep(entries: seq<PeerSnapshot>, managed: seq<Peer>, i: nat)
    requires i < |managed|
    ensures Missing(entries, managed[..i + 1]) == Missing(entries, managed[..i])
      + NewEntry(entries, managed[i])
  {
    assert managed[..i + 1][..i] == managed[..i] && managed[..i + 1][i] == managed[i];
  }

  lemma JoinOneKnown(known: seq<PeerSnapshot>, missing: seq<PeerSnapshot>, m: Peer, f: Option<nat>)
    requires FirstEntry(known + missing, m.publicKey) == f && (f.Some? ==> f.value < |known|)
    ensures JoinOne(known + missing, m) ==
      match f
      case None => known + (missing + [Overlay(Blank(m.publicKey), m)])
      case Some(i) => known[i := Overlay(known[i], m)] + missing
  {
    hide FirstEntry, Overlay;
  }

  lemma JoinStep(entries: seq<PeerSnapshot>, managed: seq<Peer>, i: nat)
    requires i < |managed| && DistinctKeys(managed)
    ensures JoinOne(Join(entries, managed[..i]), managed[i]) == Join(entries, managed[..i + 1])
  {
    hide FindPeer, Joined, Known, Missing, FirstEntry, DistinctKeys, Overlay, JoinOne;
    FoundBefore(managed, i, managed[i].publicKey);
    FirstInJoin(entries, managed[..i], managed[i].publicKey);
    FirstInRange(entries, managed[i].publicKey);
    KnownStep(entries, managed, i);
    MissingStep(entries, managed, i);
    JoinOneKnown(Known(entries, managed[..i]), Missing(entries, managed[..i]), managed[i],
      FirstEntry(entries, managed[i].publicKey));
    assert Missing(entries, managed[..i]) + [] == Missing(entries, managed[..i]);
  }

  lemma JoinNothing(entries: seq<PeerSnapshot>)
    ensures Join(entries, []) == entries
  {
  }

  method JoinManaged(entries: seq<PeerSnapshot>, managed: seq<Peer>) returns (r: seq<PeerSnapshot>)
    requires DistinctKeys(managed)
    ensures r == Join(entries, managed)
  {
    hide Joined, DistinctKeys;
    r := entries;
    JoinNothing(entries);
    assert managed[..0] == [];
    for i := 0 to |managed|
      invariant r == Join(entries, managed[..i])
    {
      JoinStep(entries, managed, i);
      var index := |r|;
      for j := 0 to |r|
        invariant index == |r|
        invariant forall l :: 0 <= l < j ==> r[l].publicKey != managed[i].publicKey
      {
        if r[j].publicKey == managed[i].publicKey {
          index := j;
          assert FirstEntry(r, managed[i].publicKey) == Some(j);
          break;
        }
      }
      assert index == |r| <==> FirstEntry(r, managed[i].publicKey).None?;
      if index == |r| {
        r := r + [Blank(managed[i].publicKey)];
      }
      r := r[index := Overlay(r[index], managed[i])];
    }
    assert managed[..|managed|] == managed;
  }

  // ---- what the join means ----

  function KeysIn(entries: seq<PeerSnapshot>): set<string>
  {
    set s | s in entries :: s.publicKey
  }

  function ManagedKeys(managed: seq<Peer>): set<string>
  {
    set m | m in managed :: m.publicKey
  }

  predicate DistinctEntries(entries: seq<PeerSnapshot>)
  {
    forall i, j :: 0 <= i < j < |entries| ==> entries[i].publicKey != entries[j].publicKey
  }

  lemma KeyIn(entries: seq<PeerSnapshot>, k: string)
    ensures k in KeysIn(entries) <==> FirstEntry(entries, k).Some?
  {
    if FirstEntry(entries, k).Some? {
      assert entries[FirstEntry(entries, k).value] in entries;
    }
  }

  lemma {:induction false} MissingEntries(entries: seq<PeerSnapshot>, managed: seq<Peer>, k: string)
    ensures k in KeysIn(Missing(entries, managed)) <==> k in ManagedKeys(managed) && FirstEntry(entries, k).None?
    decreases |managed|
  {
    hide FirstEntry;
    if managed != [] {
      var n := |managed| - 1;
      MissingEntries(entries, managed[..n], k);
      var last := NewEntry(entries, managed[n]);
      assert KeysIn(Missing(entries, managed)) == KeysIn(Missing(entries, managed[..n])) + KeysIn(last);
      assert managed == managed[..n] + [managed[n]];
      assert ManagedKeys(managed) == ManagedKeys(managed[..n]) + {managed[n].publicKey};
    }
  }

  lemma KnownKeys(entries: seq<PeerSnapshot>, managed: seq<Peer>)
    ensures KeysIn(Known(entries, managed)) == KeysIn(entries)
  {
    hide Joined;
    var known := Known(entries, managed);
    forall j | 0 <= j < |entries|
      ensures known[j].publicKey == entries[j].publicKey && known[j] in known && entries[j] in entries
    {
      JoinedKey(entries, managed, j);
    }
    forall k | k in KeysIn(known) ensures k in KeysIn(entries) {
      var j :| 0 <= j < |known| && known[j].publicKey == k;
    }
    forall k | k in KeysIn(entries) ensures k in KeysIn(known) {
      var j :| 0 <= j < |entries| && entries[j].publicKey == k;
    }
  }

  /** The keys of the result are those of the device and those of the list. */
  lemma JoinKeys(entries: seq<PeerSnapshot>, managed: seq<Peer>)
    ensures KeysIn(Join(entries, managed)) == KeysIn(entries) + ManagedKeys(managed)
  {
    hide Known, Missing, FirstEntry;
    KnownKeys(entries, managed);
    forall k ensures k in KeysIn(Missing(entries, managed)) <==> k in ManagedKeys(managed) && k !in KeysIn(entries) {
      MissingEntries(entries, managed, k);
      KeyIn(entries, k);
    }
  }

  lemma {:induction false} MissingDistinct(entries: seq<PeerSnapshot>, managed: seq<Peer>)
    requires DistinctKeys(managed)
    ensures DistinctEntries(Missing(entries, managed))
    decreases |managed|
  {
    hide FirstEntry;
    if managed != [] {
      var n := |managed| - 1;
      MissingDistinct(entries, managed[..n]);
      FoundBefore(managed, n, managed[n].publicKey);
      MissingKeys(entries, managed[..n], managed[n].publicKey);
    }
  }

  /** If the device lists no key twice, neither does the result. */
  lemma JoinDistinct(entries: seq<PeerSnapshot>, managed: seq<Peer>)
    requires DistinctKeys(managed) && DistinctEntries(entries)
    ensures DistinctEntries(Join(entries, managed))
  {
    hide Joined, Missing, FirstEntry;
    MissingDistinct(entries, managed);
    var joined, n := Join(entries, managed), |entries|;
    forall i, j | 0 <= i < j < |joined| ensures joined[i].publicKey != joined[j].publicKey {
      if i < n {
        JoinedKey(entries, managed, i);
        if j < n {
          JoinedKey(entries, managed, j);
        } else {
          var m := Missing(entries, managed)[j - n];
          assert m in Missing(entries, managed) && entries[i] in entries;
          MissingEntries(entries, managed, m.publicKey);
          KeyIn(entries, m.publicKey);
        }
      }
    }
  }

  predicate DistinctAsKeys(entries: seq<PeerSnapshot>)
  {
    forall i, j :: 0 <= i < j < |entries| ==> ParseKey(entries[i].publicKey) != ParseKey(entries[j].publicKey)
  }

  /** The entry of the device that has the record's key, however that is spelled in the record. */
  predicate OnDevice(entries: seq<PeerSnapshot>, m: Peer)
  {
    exists i :: 0 <= i < |entries| && ParseKey(entries[i].publicKey) == ParseKey(m.publicKey)
  }

  lemma DifferentStrings(managed: seq<Peer>)
    requires forall i, j :: 0 <= i < j < |managed| ==> ParseKey(managed[i].publicKey) != ParseKey(managed[j].publicKey)
    ensures DistinctKeys(managed)
  {
    hide ParseKey;
  }

  lemma MissingAsKeys(entries: seq<PeerSnapshot>, managed: seq<Peer>, i: nat, j: nat)
    requires forall i, j :: 0 <= i < j < |managed| ==> ParseKey(managed[i].publicKey) != ParseKey(managed[j].publicKey)
    requires i < j < |Missing(entries, managed)|
    ensures ParseKey(Missing(entries, managed)[i].publicKey) != ParseKey(Missing(entries, managed)[j].publicKey)
  {
    hide ParseKey, FirstEntry, Missing;
    var missing := Missing(entries, managed);
    DifferentStrings(managed);
    MissingDistinct(entries, managed);
    assert missing[i] in missing && missing[j] in missing;
    MissingEntries(entries, managed, missing[i].publicKey);
    MissingEntries(entries, managed, missing[j].publicKey);
    var a :| 0 <= a < |managed| && managed[a].publicKey == missing[i].publicKey;
    var b :| 0 <= b < |managed| && managed[b].publicKey == missing[j].publicKey;
    assert a != b;
    assert ParseKey(managed[a].publicKey) != ParseKey(managed[b].publicKey);
  }

  /** A record that the device has under another spelling gets an entry of its own. */
  lemma OtherSpelling(entries: seq<PeerSnapshot>, managed: seq<Peer>, m: nat)
    requires forall e :: e in entries ==> CanonicalKey(e.publicKey)
    requires m < |managed| && OnDevice(entries, managed[m]) && !CanonicalKey(managed[m].publicKey)
    ensures !DistinctAsKeys(Join(entries, managed))
  {
    hide CanonicalKey, ParseKey, FirstEntry, Joined, Missing, Overlay;
    var i :| 0 <= i < |entries| && ParseKey(entries[i].publicKey) == ParseKey(managed[m].publicKey);
    var k := managed[m].publicKey;
    KeyIn(entries, k);
    assert FirstEntry(entries, k).None?;
    MissingEntries(entries, managed, k);
    assert managed[m] in managed;
    var missing := Missing(entries, managed);
    var j :| 0 <= j < |missing| && missing[j].publicKey == k;
    JoinedKey(entries, managed, i);
    var joined := Join(entries, managed);
    assert joined[i].publicKey == entries[i].publicKey && joined[|entries| + j] == missing[j];
  }

  lemma MissingIsElsewhere(entries: seq<PeerSnapshot>, managed: seq<Peer>, i: nat, j: nat)
    requires i < |entries| && j < |Missing(entries, managed)|
    requires forall e :: e in entries ==> CanonicalKey(e.publicKey)
    requires forall m :: 0 <= m < |managed| && OnDevice(entries, managed[m]) ==> CanonicalKey(managed[m].publicKey)
    ensures ParseKey(entries[i].publicKey) != ParseKey(Missing(entries, managed)[j].publicKey)
  {
    hide ParseKey, CanonicalKey, FirstEntry, Missing;
    var missing := Missing(entries, managed);
    var k := missing[j].publicKey;
    assert missing[j] in missing && entries[i] in entries;
    MissingEntries(entries, managed, k);
    KeyIn(entries, k);
    var m :| 0 <= m < |managed| && managed[m].publicKey == k;
    if ParseKey(entries[i].publicKey) == ParseKey(k) {
      assert OnDevice(entries, managed[m]);
      CanonicalKeysDiffer(entries[i].publicKey, k);
    }
  }

  lemma SpelledAlike(entries: seq<PeerSnapshot>, managed: seq<Peer>)
    requires DistinctEntries(entries) && forall e :: e in entries ==> CanonicalKey(e.publicKey)
    requires forall i, j :: 0 <= i < j < |managed| ==> ParseKey(managed[i].publicKey) != ParseKey(managed[j].publicKey)
    requires forall m :: 0 <= m < |managed| && OnDevice(entries, managed[m]) ==> CanonicalKey(managed[m].publicKey)
    ensures DistinctAsKeys(Join(entries, managed))
  {
    hide ParseKey, CanonicalKey, OnDevice, Joined, Missing;
    var joined, n := Join(entries, managed), |entries|;
    forall i, j | 0 <= i < j < |joined| ensures ParseKey(joined[i].publicKey) != ParseKey(joined[j].publicKey) {
      if j < n {
        JoinedKey(entries, managed, i);
        JoinedKey(entries, managed, j);
        assert entries[i] in entries && entries[j] in entries;
        CanonicalKeysDiffer(entries[i].publicKey, entries[j].publicKey);
      } else if i < n {
        JoinedKey(entries, managed, i);
        MissingIsElsewhere(entries, managed, i, j - n);
      } else {
        MissingAsKeys(entries, managed, i - n, j - n);
      }
    }
  }

  /**
   * As keys, the result has no duplicates if and only if every record that the device has is spelled as the device
   * spells it. The device's own spelling is canonical; that of an imported record need not be.
   */
  lemma JoinDistinctAsKeys(entries: seq<PeerSnapshot>, managed: seq<Peer>)
    requires DistinctEntries(entries) && forall e :: e in entries ==> CanonicalKey(e.publicKey)
    requires forall i, j :: 0 <= i < j < |managed| ==> ParseKey(managed[i].publicKey) != ParseKey(managed[j].publicKey)
    ensures DistinctAsKeys(Join(entries, managed)) <==>
      forall m :: 0 <= m < |managed| && OnDevice(entries, managed[m]) ==> CanonicalKey(managed[m].publicKey)
  {
    hide ParseKey, CanonicalKey, OnDevice, Join, DistinctAsKeys, DistinctEntries;
    if m :| 0 <= m < |managed| && OnDevice(entries, managed[m]) && !CanonicalKey(managed[m].publicKey) {
      OtherSpelling(entries, managed, m);
    } else {
      SpelledAlike(entries, managed);
    }
  }

  lemma FoundAt(managed: seq<Peer>, i: nat)
    requires DistinctKeys(managed) && i < |managed|
    ensures FindPeer(managed, managed[i].publicKey) == Some(i)
  {
    var j := FindPeer(managed, managed[i].publicKey);
    assert j.Some?;
    assert j.value == i;
  }

  lemma {:induction false} MissingHas(entries: seq<PeerSnapshot>, managed: seq<Peer>, i: nat)
    requires i < |managed| && FirstEntry(entries, managed[i].publicKey).None?
    ensures Overlay(Blank(managed[i].publicKey), managed[i]) in Missing(entries, managed)
    decreases |managed|
  {
    hide FirstEntry, Overlay;
    var n := |managed| - 1;
    if i < n {
      MissingHas(entries, managed[..n], i);
    }
  }

  /** The entry says of the managed peer what its record says. */
  predicate Carries(e: PeerSnapshot, m: Peer)
  {
    && e.publicKey == m.publicKey && e.managedBy == "peerblade_native" && e.managedName == m.name
    && e.configuredAllowedIPs == m.allowedIPs && e.enabled == Some(m.enabled)
  }

  /** The entry says of the device what `b` says. */
  predicate Measures(e: PeerSnapshot, b: PeerSnapshot)
  {
    && e.endpoint == b.endpoint && e.allowedIPs == b.allowedIPs && e.lastHandshake == b.lastHandshake
    && e.received == b.received && e.transmitted == b.transmitted && e.keepaliveSeconds == b.keepaliveSeconds
  }

  /** The device has nothing to say of the peer. */
  predicate Unmeasured(e: PeerSnapshot)
  {
    && e.endpoint == None && e.allowedIPs == [] && e.lastHandshake == None
    && e.received == "0" && e.transmitted == "0" && e.keepaliveSeconds == 0
  }

  /** Some entry of `after` carries the record, with the measurements of one of `before`, or none if it has none. */
  predicate CarriedIn(before: seq<PeerSnapshot>, m: Peer, after: seq<PeerSnapshot>)
  {
    exists e :: e in after && Carries(e, m)
      && if exists b :: b in before && b.publicKey == m.publicKey
         then exists b :: b in before && b.publicKey == m.publicKey && Measures(e, b)
         else Unmeasured(e)
  }

  /**
   * Every managed record is carried by one entry, with its own name, networks and flag: the device's first entry of its
   * key, whose measurements it keeps, or else a new one without any.
   */
  lemma ManagedIsCarried(entries: seq<PeerSnapshot>, managed: seq<Peer>, i: nat)
    requires DistinctKeys(managed) && i < |managed|
    ensures var m := managed[i];
      match FirstEntry(entries, m.publicKey)
      case Some(f) => Carries(Join(entries, managed)[f], m) && Measures(Join(entries, managed)[f], entries[f])
      case None => exists e :: e in Missing(entries, managed) && Carries(e, m) && Unmeasured(e)
    ensures CarriedIn(entries, managed[i], Join(entries, managed))
  {
    var m := managed[i];
    FoundAt(managed, i);
    match FirstEntry(entries, m.publicKey)
    case Some(f) =>
      hide FindPeer, Missing;
      assert Join(entries, managed)[f] in Join(entries, managed) && entries[f] in entries;
    case None =>
      hide FindPeer;
      MissingHas(entries, managed, i);
  }

  /** What the device reported of a peer, without what the join may add. */
  function Measured(s: PeerSnapshot): PeerSnapshot
  {
    s.(managedBy := "", managedName := "", configuredAllowedIPs := [], enabled := None)
  }

  /** The join changes no measurement, and nothing at all of a peer that is not managed. */
  lemma JoinKeepsMeasurements(entries: seq<PeerSnapshot>, managed: seq<Peer>, j: nat)
    requires j < |entries|
    ensures Measured(Join(entries, managed)[j]) == Measured(entries[j])
    ensures entries[j].publicKey !in ManagedKeys(managed) ==> Join(entries, managed)[j] == entries[j]
  {
    hide Missing, FirstEntry;
    if FindPeer(managed, entries[j].publicKey).Some? {
      assert managed[FindPeer(managed, entries[j].publicKey).value] in managed;
    }
  }

  // ---- the collector ----

  datatype CollectFailure = SourceFailed | StateFailed | InterfaceMissing

  /** A device after the join. */
  ghost predicate MergedDevice(before: DeviceSnapshot, managed: seq<Peer>, name: string, after: DeviceSnapshot)
  {
    if before.name != name then after == before
    else
      && after == before.(peers := after.peers, peerCount := |after.peers|)
      && SortedBy(after.peers, KeyLeq)
      && multiset(after.peers) == multiset(Join(before.peers, managed))
  }

  /** In a device after the join every managed record is carried, and every entry that is not managed is as before. */
  predicate ShowsManaged(before: seq<PeerSnapshot>, managed: seq<Peer>, after: seq<PeerSnapshot>)
  {
    && (forall m :: m in managed ==> CarriedIn(before, m, after))
    && (forall b :: b in before && (forall m :: m in managed ==> m.publicKey != b.publicKey) ==> b in after)
    && (forall e :: e in after ==> e in before || exists m :: m in managed && Carries(e, m))
  }

  lemma {:induction false} MissingCarries(entries: seq<PeerSnapshot>, managed: seq<Peer>, e: PeerSnapshot)
    requires e in Missing(entries, managed)
    ensures exists m :: m in managed && Carries(e, m)
    decreases |managed|
  {
    hide FirstEntry;
    var n := |managed| - 1;
    if e in Missing(entries, managed[..n]) {
      MissingCarries(entries, managed[..n], e);
    } else {
      assert managed[n] in managed && Carries(e, managed[n]);
    }
  }

  lemma JoinedShows(entries: seq<PeerSnapshot>, managed: seq<Peer>, j: nat)
    requires j < |entries|
    ensures Joined(entries, managed, j) == entries[j] ||
      exists m :: m in managed && Carries(Joined(entries, managed, j), m)
    ensures (forall m :: m in managed ==> m.publicKey != entries[j].publicKey) ==>
      Joined(entries, managed, j) == entries[j]
  {
    hide FirstEntry;
    var f := FindPeer(managed, entries[j].publicKey);
    if f.Some? {
      assert managed[f.value] in managed;
    }
  }

  lemma JoinShowsManaged(entries: seq<PeerSnapshot>, managed: seq<Peer>)
    requires DistinctKeys(managed)
    ensures ShowsManaged(entries, managed, Join(entries, managed))
  {
    hide DistinctKeys, CarriedIn, Joined, Missing, Carries;
    var joined := Join(entries, managed);
    forall m | m in managed ensures CarriedIn(entries, m, joined) {
      var i :| 0 <= i < |managed| && managed[i] == m;
      ManagedIsCarried(entries, managed, i);
    }
    forall b | b in entries && (forall m :: m in managed ==> m.publicKey != b.publicKey) ensures b in joined {
      var j :| 0 <= j < |entries| && entries[j] == b;
      JoinedShows(entries, managed, j);
      assert joined[j] == b;
    }
    forall e | e in joined ensures e in entries || exists m :: m in managed && Carries(e, m) {
      if e in Missing(entries, managed) {
        MissingCarries(entries, managed, e);
      } else {
        var j :| 0 <= j < |entries| && joined[j] == e;
        JoinedShows(entries, managed, j);
        assert entries[j] in entries;
      }
    }
  }

  lemma ShownInAnyOrder(before: seq<PeerSnapshot>, managed: seq<Peer>, x: seq<PeerSnapshot>, y: seq<PeerSnapshot>)
    requires ShowsManaged(before, managed, x) && multiset(x) == multiset(y)
    ensures ShowsManaged(before, managed, y)
  {
    hide Carries, Measures, Unmeasured;
    SameMembers(x, y);
  }

  /** ManagedCollector.Collect, from the two lists on. */
  method Merge(devices: seq<DeviceSnapshot>, managed: seq<Peer>, name: string) returns (r: Option<seq<DeviceSnapshot>>)
    requires DistinctKeys(managed)
    ensures r.None? <==> forall i :: 0 <= i < |devices| ==> devices[i].name != name
    ensures r.Some? ==>
      && |r.value| == |devices|
      && forall i :: 0 <= i < |devices| ==> MergedDevice(devices[i], managed, name, r.value[i])
    ensures r.Some? ==> forall i :: 0 <= i < |devices| && devices[i].name == name ==>
      ShowsManaged(devices[i].peers, managed, r.value[i].peers)
  {
    hide DistinctKeys, Join, KeyLeq, ShowsManaged;
    var merged := devices;
    var found := false;
    for i := 0 to |devices|
      invariant |merged| == |devices|
      invariant found <==> exists j :: 0 <= j < i && devices[j].name == name
      invariant forall j :: 0 <= j < i ==> MergedDevice(devices[j], managed, name, merged[j])
      invariant forall j :: i <= j < |devices| ==> merged[j] == devices[j]
    {
      if merged[i].name == name {
        found := true;
        var peers := JoinManaged(merged[i].peers, managed);
        StringOrder();
        peers := Sort(peers, KeyLeq);
        merged := merged[i := merged[i].(peers := peers, peerCount := |peers|)];
      }
    }
    if !found {
      return None;
    }
    forall i | 0 <= i < |devices| && devices[i].name == name
      ensures ShowsManaged(devices[i].peers, managed, merged[i].peers)
    {
      JoinShowsManaged(devices[i].peers, managed);
      ShownInAnyOrder(devices[i].peers, managed, Join(devices[i].peers, managed), merged[i].peers);
    }
    return Some(merged);
  }

  /** A proper snapshot stays proper, and its devices keep their names. */
  lemma MergeKeepsProper(devices: seq<DeviceSnapshot>, managed: seq<Peer>, name: string, r: seq<DeviceSnapshot>)
    requires Proper(devices) && |r| == |devices|
    requires forall i :: 0 <= i < |devices| ==> MergedDevice(devices[i], managed, name, r[i])
    ensures Proper(r) && forall i :: 0 <= i < |devices| ==> r[i].name == devices[i].name
  {
    hide KeyLeq, StringLeq, Join;
    forall i, j | 0 <= i < j < |r| ensures NameLeq(r[i], r[j]) {
      assert NameLeq(devices[i], devices[j]);
    }
  }

  lemma {:induction false} SameNames(xs: seq<DeviceSnapshot>, ys: seq<DeviceSnapshot>, name: string)
    requires |xs| == |ys| && forall i :: 0 <= i < |xs| ==> xs[i].name == ys[i].name
    ensures |Named(xs, name)| == |Named(ys, name)|
    decreases |xs|
  {
    if xs != [] {
      SameNames(xs[1..], ys[1..], name);
    }
  }

  lemma EntriesTellApart(entries: seq<PeerSnapshot>, order: seq<PeerSnapshot>, a: PeerSnapshot, b: PeerSnapshot)
    requires DistinctEntries(entries) && multiset(order) == multiset(entries)
    requires a in order && b in order && a.publicKey == b.publicKey
    ensures a == b
  {
    SameMembers(order, entries);
    var i :| 0 <= i < |entries| && entries[i] == a;
    var j :| 0 <= j < |entries| && entries[j] == b;
  }

  /** If the device lists no key twice, the merged device is determined. */
  lemma MergedDeviceUnique(before: DeviceSnapshot, managed: seq<Peer>, name: string, a: DeviceSnapshot,
      b: DeviceSnapshot)
    requires DistinctKeys(managed) && DistinctEntries(before.peers)
    requires MergedDevice(before, managed, name, a) && MergedDevice(before, managed, name, b)
    ensures a == b
  {
    hide Join, StringLeq, DistinctKeys, DistinctEntries;
    if before.name == name {
      JoinDistinct(before.peers, managed);
      StringOrder();
      forall x, y | x in a.peers && y in a.peers && KeyLeq(x, y) && KeyLeq(y, x) ensures x == y {
        EntriesTellApart(Join(before.peers, managed), a.peers, x, y);
      }
      SortedUnique(a.peers, b.peers, KeyLeq);
    }
  }
}
