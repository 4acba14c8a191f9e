/** The multi-version map with a last access time (LAT) for each of infinitely many keys
    (src/multiversion_map.rs). */
module MultiVersion {
  import opened Wrappers
  import opened Timestamps

  type Version<V> = (Timestamp, Option<V>)

  datatype Entry<V> = Entry(lat: Timestamp, versions: seq<Version<V>>)

  /** A key without an entry has the LAT `minLat` and no versions. */
  datatype Mvm<K, V> = Mvm(minLat: Timestamp, entries: map<K, Entry<V>>)

  function Lat<K, V>(m: Mvm<K, V>, k: K): Timestamp {
    if k in m.entries then m.entries[k].lat else m.minLat
  }

  function Versions<K, V>(m: Mvm<K, V>, k: K): seq<Version<V>> {
    if k in m.entries then m.entries[k].versions else []
  }

  /** `find_prior_version`: the last version not after `t`. */
  function Prior<V>(vs: seq<Version<V>>, t: Timestamp): Option<Version<V>> {
    if vs == [] then None
    else if Upto(vs[|vs| - 1].0, t) then Some(vs[|vs| - 1])
    else Prior(vs[..|vs| - 1], t)
  }

  function PriorValue<V>(vs: seq<Version<V>>, t: Timestamp): Option<V> {
    match Prior(vs, t)
    case Some(v) => v.1
    case None => None
  }

  /** The value of a key at a time. */
  function At<K, V>(m: Mvm<K, V>, k: K, t: Timestamp): Option<V> {
    PriorValue(Versions(m, k), t)
  }

  /** The newest version, and the newest that is a value. */
  function Last<K, V>(m: Mvm<K, V>, k: K): Option<V> {
    var vs := Versions(m, k);
    if vs == [] then None else vs[|vs| - 1].1
  }

  function LastPresentOf<V>(vs: seq<Version<V>>): Option<V> {
    if vs == [] then None
    else if vs[|vs| - 1].1.Some? then vs[|vs| - 1].1
    else LastPresentOf(vs[..|vs| - 1])
  }

  predicate Increasing<V>(vs: seq<Version<V>>) {
    forall j, k | 0 <= j < k < |vs| :: Before(vs[j].0, vs[k].0)
  }

  predicate ValidEntry<V>(e: Entry<V>, minLat: Timestamp) {
    && Upto(minLat, e.lat) && Increasing(e.versions)
    && forall k | 0 <= k < |e.versions| :: Upto(e.versions[k].0, e.lat)
  }

  /** No LAT is below the smallest one, and versions are in order and not after the LAT. */
  ghost predicate Valid<K(!new), V(!new)>(m: Mvm<K, V>) {
    forall k | k in m.entries :: ValidEntry(m.entries[k], m.minLat)
  }

  function NewMvm<K, V>(): Mvm<K, V> { Mvm(Millis(0), map[]) }

  function Written<K, V>(m: Mvm<K, V>, k: K, v: Option<V>, t: Timestamp): Mvm<K, V> {
    m.(entries := m.entries[k := Entry(t, Versions(m, k) + [(t, v)])])
  }

  /** `update_lat`, and what `read` does to the LAT. */
  function Raised<K, V>(m: Mvm<K, V>, k: K, t: Timestamp): Mvm<K, V> {
    if k in m.entries then m.(entries := m.entries[k := m.entries[k].(lat := Later(m.entries[k].lat, t))])
    else if Before(m.minLat, t) then m.(entries := m.entries[k := Entry(t, [])])
    else m
  }

  function RaisedAll<K, V>(m: Mvm<K, V>, t: Timestamp): Mvm<K, V> {
    if Before(m.minLat, t)
    then Mvm(t, map k | k in m.entries :: m.entries[k].(lat := Later(m.entries[k].lat, t)))
    else m
  }

  /** `static_snapshot_read`. */
  function Snapshot<K, V>(m: Mvm<K, V>, t: Timestamp): map<K, V> {
    map k | k in m.entries && At(m, k, t).Some? :: At(m, k, t).value
  }

  // ---------------------------------------------------------------------------------------------
  //  The past does not change
  // ---------------------------------------------------------------------------------------------

  /** `n` is `m` after some operations: LATs have not decreased and no key has changed up to its LAT. */
  ghost predicate Grows<K(!new), V(!new)>(m: Mvm<K, V>, n: Mvm<K, V>) {
    && Upto(m.minLat, n.minLat)
    && (forall k :: Upto(Lat(m, k), Lat(n, k)))
    && (forall k, t | Upto(t, Lat(m, k)) :: At(n, k, t) == At(m, k, t))
  }

  lemma {:induction false} GrowsTransitive<K(!new), V(!new)>(a: Mvm<K, V>, b: Mvm<K, V>, c: Mvm<K, V>)
    requires Grows(a, b) && Grows(b, c)
    ensures Grows(a, c)
  {
    forall k ensures Upto(Lat(a, k), Lat(c, k)) { assert Upto(Lat(a, k), Lat(b, k)) && Upto(Lat(b, k), Lat(c, k)); }
    forall k, t | Upto(t, Lat(a, k)) ensures At(c, k, t) == At(a, k, t) {
      assert Upto(Lat(a, k), Lat(b, k));
      assert At(b, k, t) == At(a, k, t);
    }
  }

  /** A write is legal at a time after the LAT of the key. */
  lemma {:induction false} WriteGrows<K(!new), V(!new)>(m: Mvm<K, V>, k: K, v: Option<V>, t: Timestamp)
    requires Valid(m) && Before(Lat(m, k), t)
    ensures Valid(Written(m, k, v, t)) && Grows(m, Written(m, k, v, t))
  {
    var n := Written(m, k, v, t);
    forall j, x | Upto(x, Lat(m, j)) ensures At(n, j, x) == At(m, j, x) { WriteAfter(m, k, v, t, j, x); }
    WriteValid(m, k, v, t);
    hide At, ValidEntry;
    forall j | j in n.entries ensures ValidEntry(n.entries[j], n.minLat) {
      if j != k { assert ValidEntry(m.entries[j], m.minLat); }
    }
  }

  lemma {:induction false} WriteAfter<K(!new), V(!new)>(m: Mvm<K, V>, k: K, v: Option<V>, t: Timestamp, j: K, x: Timestamp)
    requires Before(Lat(m, k), t) && Upto(x, Lat(m, j))
    ensures At(Written(m, k, v, t), j, x) == At(m, j, x)
  {
    var vs := Versions(m, k);
    if j == k { assert (vs + [(t, v)])[..|vs|] == vs; }
  }

  lemma {:induction false} WriteValid<K(!new), V(!new)>(m: Mvm<K, V>, k: K, v: Option<V>, t: Timestamp)
    requires Valid(m) && Before(Lat(m, k), t)
    ensures ValidEntry(Written(m, k, v, t).entries[k], m.minLat)
  {
    var vs := Versions(m, k);
    var ws := vs + [(t, v)];
    if k in m.entries { assert ValidEntry(m.entries[k], m.minLat); }
    forall i | 0 <= i < |ws| ensures Upto(ws[i].0, t) { if i < |vs| { assert ws[i] == vs[i]; } }
    forall i, l | 0 <= i < l < |ws| ensures Before(ws[i].0, ws[l].0) {
      assert ws[i] == vs[i];
      if l < |vs| { assert ws[l] == vs[l]; }
    }
  }

  lemma {:induction false} RaiseGrows<K(!new), V(!new)>(m: Mvm<K, V>, k: K, t: Timestamp)
    requires Valid(m)
    ensures Valid(Raised(m, k, t)) && Grows(m, Raised(m, k, t)) && Upto(t, Lat(Raised(m, k, t), k))
    ensures forall j, x :: At(Raised(m, k, t), j, x) == At(m, j, x)
  {
    var n := Raised(m, k, t);
    assert forall j :: Versions(n, j) == Versions(m, j);
    if k in m.entries { assert ValidEntry(m.entries[k], m.minLat); }
  }

  lemma {:induction false} RaiseAllGrows<K(!new), V(!new)>(m: Mvm<K, V>, t: Timestamp)
    requires Valid(m)
    ensures Valid(RaisedAll(m, t)) && Grows(m, RaisedAll(m, t)) && Upto(t, RaisedAll(m, t).minLat)
    ensures forall k, x :: At(RaisedAll(m, t), k, x) == At(m, k, x)
  {
    var n := RaisedAll(m, t);
    assert forall j :: Versions(n, j) == Versions(m, j);
    forall k | k in n.entries ensures ValidEntry(n.entries[k], n.minLat) { assert ValidEntry(m.entries[k], m.minLat); }
  }

  /** In a valid map no LAT is below the smallest. */
  lemma {:induction false} MinLatIsMin<K(!new), V(!new)>(m: Mvm<K, V>, k: K)
    requires Valid(m)
    ensures Upto(m.minLat, Lat(m, k))
  {
    if k in m.entries { assert ValidEntry(m.entries[k], m.minLat); }
  }

  lemma {:induction false} Absent<K, V>(m: Mvm<K, V>, k: K, t: Timestamp)
    ensures k !in m.entries ==> At(m, k, t) == None
  {
  }

  /** A snapshot up to the smallest LAT does not change, for all of the infinitely many keys. */
  lemma {:induction false} SnapshotFixed<K(!new), V(!new)>(m: Mvm<K, V>, n: Mvm<K, V>, t: Timestamp)
    requires Valid(m) && Grows(m, n) && Upto(t, m.minLat)
    ensures Snapshot(n, t) == Snapshot(m, t)
  {
    forall k ensures At(n, k, t) == At(m, k, t) { MinLatIsMin(m, k); }
    hide At;
    forall k ensures k in Snapshot(n, t) <==> k in Snapshot(m, t) {
      Absent(m, k, t);
      Absent(n, k, t);
    }
  }

  // ---------------------------------------------------------------------------------------------
  //  The value at a time, in terms of the versions
  // ---------------------------------------------------------------------------------------------

  /** Version `k` is the newest that is not after `t`. */
  ghost predicate Newest<V(!new)>(vs: seq<Version<V>>, t: Timestamp, k: int) {
    0 <= k < |vs| && Upto(vs[k].0, t) && forall j | k < j < |vs| :: !Upto(vs[j].0, t)
  }

  /** At time `t` the versions say `v`: the newest one does, or there is none and `v` is no value. */
  ghost predicate Says<V(!new)>(vs: seq<Version<V>>, t: Timestamp, v: Option<V>) {
    || (exists k :: Newest(vs, t, k) && vs[k].1 == v)
    || (v.None? && forall k | 0 <= k < |vs| :: !Upto(vs[k].0, t))
  }

  lemma {:induction false} PriorSays<V(!new)>(vs: seq<Version<V>>, t: Timestamp)
    ensures forall v :: Says(vs, t, v) <==> v == PriorValue(vs, t)
  {
    if vs != [] {
      var n := |vs| - 1;
      if Upto(vs[n].0, t) {
        assert Newest(vs, t, n);
      } else {
        PriorSays(vs[..n], t);
        forall v ensures Says(vs, t, v) <==> Says(vs[..n], t, v) {
          forall k ensures Newest(vs, t, k) <==> Newest(vs[..n], t, k) && k < n { NewestShort(vs, t, k); }
          if k :| Newest(vs, t, k) && vs[k].1 == v { assert Newest(vs[..n], t, k); }
          if k :| Newest(vs[..n], t, k) && vs[..n][k].1 == v { assert Newest(vs, t, k); }
          if forall k | 0 <= k < n :: !Upto(vs[..n][k].0, t) { forall k | 0 <= k < n ensures !Upto(vs[k].0, t) { assert vs[..n][k] == vs[k]; } }
        }
      }
    }
  }

  lemma {:induction false} NewestShort<V(!new)>(vs: seq<Version<V>>, t: Timestamp, k: int)
    requires vs != [] && !Upto(vs[|vs| - 1].0, t)
    ensures Newest(vs, t, k) <==> Newest(vs[..|vs| - 1], t, k)
  {
    var init := vs[..|vs| - 1];
    if Newest(init, t, k) {
      forall j | k < j < |vs| ensures !Upto(vs[j].0, t) { if j < |init| { assert vs[j] == init[j]; } }
    }
    if Newest(vs, t, k) {
      assert k < |init|;
      forall j | k < j < |init| ensures !Upto(init[j].0, t) { assert vs[j] == init[j]; }
    }
  }

  /** What a write makes of the map: the new value from its time on, and nothing else. */
  lemma {:induction false} WriteMeans<K(!new), V(!new)>(m: Mvm<K, V>, k: K, v: Option<V>, t: Timestamp, j: K, x: Timestamp)
    requires Valid(m) && Before(Lat(m, k), t)
    ensures At(Written(m, k, v, t), j, x) == if j == k && Upto(t, x) then v else At(m, j, x)
  {
    if j == k {
      var vs := Versions(m, k);
      assert (vs + [(t, v)])[..|vs|] == vs;
    }
  }

  /** Raising a LAT raises it to the time, if it was below, and raises no other. */
  lemma {:induction false} RaiseExactly<K(!new), V(!new)>(m: Mvm<K, V>, k: K, t: Timestamp, j: K)
    requires Valid(m)
    ensures Lat(Raised(m, k, t), j) == if j == k then Later(Lat(m, k), t) else Lat(m, j)
    ensures Lat(RaisedAll(m, t), j) == Later(Lat(m, j), t)
  {
    MinLatIsMin(m, j);
  }

  // ---------------------------------------------------------------------------------------------
  //  The map, updated in place
  // ---------------------------------------------------------------------------------------------

  class MVM<K(==, !new), V(!new)> {
    var minLat: Timestamp
    var entries: map<K, Entry<V>>

    constructor ()
      ensures View() == NewMvm()
    {
      minLat, entries := Millis(0), map[];
    }

    /** The abstract value of the map. */
    function View(): (m: Mvm<K, V>)
      reads this
    {
      Mvm(minLat, entries)
    }

    /** The caller must be sure that `t` is beyond the LAT of the key. */
    method Write(k: K, v: Option<V>, t: Timestamp)
      requires Valid(View()) && Before(Lat(View(), k), t)
      modifies this
      ensures View() == Written(old(View()), k, v, t) && Valid(View()) && Grows(old(View()), View())
    {
      WriteGrows(View(), k, v, t);
      if k in entries {
        entries := entries[k := Entry(t, entries[k].versions + [(t, v)])];
      } else {
        entries := entries[k := Entry(t, [(t, v)])];
        assert [] + [(t, v)] == [(t, v)];
      }
    }

    method Read(k: K, t: Timestamp) returns (v: Option<V>)
      requires Valid(View())
      modifies this
      ensures View() == Raised(old(View()), k, t) && Valid(View()) && Grows(old(View()), View())
      ensures v == At(View(), k, t)
    {
      RaiseGrows(View(), k, t);
      if k in entries {
        var e := entries[k];
        entries := entries[k := e.(lat := Later(e.lat, t))];
        v := FindPriorValue(e.versions, t);
      } else {
        if Before(minLat, t) { entries := entries[k := Entry(t, [])]; }
        v := None;
      }
    }

    method UpdateLat(k: K, t: Timestamp)
      requires Valid(View())
      modifies this
      ensures View() == Raised(old(View()), k, t) && Valid(View()) && Grows(old(View()), View())
    {
      RaiseGrows(View(), k, t);
      if k in entries {
        entries := entries[k := entries[k].(lat := Later(entries[k].lat, t))];
      } else if Before(minLat, t) {
        entries := entries[k := Entry(t, [])];
      }
    }

    method UpdateAllLats(t: Timestamp)
      requires Valid(View())
      modifies this
      ensures View() == RaisedAll(old(View()), t) && Valid(View()) && Grows(old(View()), View())
    {
      RaiseAllGrows(View(), t);
      if Before(minLat, t) {
        var todo := entries.Keys;
        while todo != {}
          invariant todo <= entries.Keys == old(entries).Keys && minLat == old(minLat)
          invariant forall k | k in entries ::
            entries[k] == if k in todo then old(entries)[k] else old(entries)[k].(lat := Later(old(entries)[k].lat, t))
          decreases todo
        {
          var k :| k in todo;
          entries := entries[k := entries[k].(lat := Later(entries[k].lat, t))];
          todo := todo - {k};
        }
        minLat := t;
        assert entries == RaisedAll(old(View()), t).entries;
      }
    }

    /** The newest version that is a value. */
    method GetLastPresentVersion(k: K) returns (v: Option<V>)
      ensures v == LastPresentOf(Versions(View(), k))
    {
      if k in entries {
        var vs := entries[k].versions;
        var i := |vs|;
        assert vs[..i] == vs;
        while i > 0
          invariant 0 <= i <= |vs| && LastPresentOf(vs) == LastPresentOf(vs[..i])
        {
          assert vs[..i][..i - 1] == vs[..i - 1];
          if vs[i - 1].1.Some? { return vs[i - 1].1; }
          i := i - 1;
        }
      }
      return None;
    }

    /** The highest LAT of any key. */
    method GetLatestLat() returns (t: Timestamp)
      ensures Upto(minLat, t) && forall k | k in entries :: Upto(entries[k].lat, t)
      ensures t == minLat || exists k :: k in entries && entries[k].lat == t
    {
      t := minLat;
      var todo := entries.Keys;
      while todo != {}
        invariant todo <= entries.Keys && Upto(minLat, t)
        invariant forall k | k in entries && k !in todo :: Upto(entries[k].lat, t)
        invariant t == minLat || exists k :: k in entries && entries[k].lat == t
        decreases todo
      {
        var k :| k in todo;
        t := Later(t, entries[k].lat);
        todo := todo - {k};
      }
    }
  }

  /** Searches the versions backwards. */
  method FindPriorValue<V>(vs: seq<Version<V>>, t: Timestamp) returns (v: Option<V>)
    ensures v == PriorValue(vs, t)
  {
    var i := |vs|;
    assert vs[..i] == vs;
    while i > 0
      invariant 0 <= i <= |vs| && Prior(vs, t) == Prior(vs[..i], t)
    {
      assert vs[..i][..i - 1] == vs[..i - 1];
      if Upto(vs[i - 1].0, t) { return vs[i - 1].1; }
      i := i - 1;
    }
    return None;
  }

  /** In ordered versions the search finds the newest version not after `t`. */
  lemma {:induction false} PriorIsNewest<V(!new)>(vs: seq<Version<V>>, t: Timestamp)
    requires Increasing(vs)
    ensures Prior(vs, t).Some? ==>
      exists k :: 0 <= k < |vs| && vs[k] == Prior(vs, t).value && Upto(vs[k].0, t) && forall j | k < j < |vs| :: Before(t, vs[j].0)
    ensures Prior(vs, t).None? ==> forall j | 0 <= j < |vs| :: Before(t, vs[j].0)
  {
    if vs != [] {
      var n := |vs| - 1;
      if Upto(vs[n].0, t) {
        assert vs[n] == Prior(vs, t).value;
      } else {
        PriorIsNewest(vs[..n], t);
        if Prior(vs, t).Some? {
          var k :| 0 <= k < n && vs[..n][k] == Prior(vs, t).value && Upto(vs[..n][k].0, t) && forall j | k < j < n :: Before(t, vs[..n][j].0);
          assert vs[k] == Prior(vs, t).value;
          forall j | k < j < |vs| ensures Before(t, vs[j].0) { if j < n { assert vs[..n][j] == vs[j]; } }
        } else {
          forall j | 0 <= j < |vs| ensures Before(t, vs[j].0) { if j < n { assert vs[..n][j] == vs[j]; } }
        }
      }
    }
  }
}
