/** One set of SetAssociativeCache (inc/bakshalipour_framework.h): its ways, and the CAM that finds the
    way of a tag, always agree with the map from keys to data. */
module CamSet {
  import opened Counting
  import opened LruTable

  datatype Entry<T> = Entry(key: nat, tag: nat, valid: bool, data: T)

  function IsValid<T>(): Entry<T> -> bool { (e: Entry<T>) => e.valid }

  /** The key, taken apart: set index and tag determine it. */
  lemma KeyFromTag(a: nat, b: nat, sets: nat)
    requires sets > 0 && a % sets == b % sets && a / sets == b / sets
    ensures a == b
  {
    assert a == sets * (a / sets) + a % sets;
    assert b == sets * (b / sets) + b % sets;
  }

  lemma TagsDiffer(a: nat, b: nat, sets: nat)
    requires sets > 0 && a != b && a % sets == b % sets
    ensures a / sets != b / sets
  {
    if a / sets == b / sets {
      KeyFromTag(a, b, sets);
      assert false;
    }
  }

  /** A valid way holds a key of set `i`, and the CAM finds it. */
  ghost predicate WayOk<T(!new)>(sets: nat, i: nat, w: nat, e: Entry<T>, cam: map<nat, nat>, contents: map<nat, T>)
    requires sets > 0
  {
    e.valid ==>
      && e.key % sets == i && e.key / sets == e.tag
      && e.tag in cam && cam[e.tag] == w
      && e.key in contents && contents[e.key] == e.data
  }

  ghost predicate Agrees<T(!new)>(sets: nat, i: nat, row: seq<Entry<T>>, cam: map<nat, nat>, contents: map<nat, T>)
    requires sets > 0
  {
    && (forall w :: 0 <= w < |row| ==> WayOk(sets, i, w, row[w], cam, contents))
    && (forall tag :: tag in cam ==> cam[tag] < |row| && row[cam[tag]].valid && row[cam[tag]].tag == tag)
    && (forall k :: k in contents && k % sets == i ==> k / sets in cam && cam[k / sets] < |row| && row[cam[k / sets]].key == k)
    && Count(row, IsValid()) == SetSize(contents.Keys, sets, i)
  }

  /** The CAM decides membership. */
  lemma CamDecides<T(!new)>(sets: nat, i: nat, row: seq<Entry<T>>, cam: map<nat, nat>, contents: map<nat, T>, k: nat)
    requires sets > 0 && Agrees(sets, i, row, cam, contents) && k % sets == i
    ensures k / sets in cam <==> k in contents
    ensures k in contents ==> cam[k / sets] < |row| && row[cam[k / sets]] == Entry(k, k / sets, true, contents[k])
  {
    if k / sets in cam {
      KeyFromTag(row[cam[k / sets]].key, k, sets);
    }
  }

  /** The set is full exactly when no way is invalid. */
  lemma FullMeaning<T(!new)>(sets: nat, i: nat, row: seq<Entry<T>>, cam: map<nat, nat>, contents: map<nat, T>)
    requires sets > 0 && Agrees(sets, i, row, cam, contents)
    ensures SetSize(contents.Keys, sets, i) <= |row|
    ensures SetSize(contents.Keys, sets, i) == |row| <==> forall w :: 0 <= w < |row| ==> row[w].valid
  {
    CountBound(row, IsValid());
    assert forall w :: 0 <= w < |row| ==> IsValid()(row[w]) == row[w].valid;
  }

  lemma OverwriteAgrees<T(!new)>(sets: nat, i: nat, row: seq<Entry<T>>, cam: map<nat, nat>, contents: map<nat, T>, k: nat, v: T)
    requires sets > 0 && Agrees(sets, i, row, cam, contents) && k % sets == i && k in contents
    ensures var w := cam[k / sets];
      w < |row| && Agrees(sets, i, row[w := row[w].(data := v)], cam, contents[k := v])
  {
    var w := cam[k / sets];
    CamDecides(sets, i, row, cam, contents, k);
    CountUpdate(row, w, row[w].(data := v), IsValid());
    assert contents[k := v].Keys == contents.Keys;
    var row' := row[w := row[w].(data := v)];
    forall x | 0 <= x < |row'| ensures WayOk(sets, i, x, row'[x], cam, contents[k := v]) {
      assert WayOk(sets, i, x, row[x], cam, contents);
    }
  }

  lemma DropAgrees<T(!new)>(sets: nat, i: nat, row: seq<Entry<T>>, cam: map<nat, nat>, contents: map<nat, T>, w: nat)
    requires sets > 0 && Agrees(sets, i, row, cam, contents) && w < |row| && row[w].valid
    ensures Agrees(sets, i, row[w := row[w].(valid := false)], cam - {row[w].tag}, contents - {row[w].key})
  {
    var k := row[w].key;
    var row', cam', contents' := row[w := row[w].(valid := false)], cam - {row[w].tag}, contents - {k};
    assert WayOk(sets, i, w, row[w], cam, contents);
    CountUpdate(row, w, row[w].(valid := false), IsValid());
    SmallerSet(contents.Keys, k, sets, i);
    assert contents'.Keys == contents.Keys - {k};
    forall x | 0 <= x < |row'| ensures WayOk(sets, i, x, row'[x], cam', contents') {
      assert WayOk(sets, i, x, row[x], cam, contents);
    }
    forall x | x in contents' && x % sets == i
      ensures x / sets in cam' && cam'[x / sets] < |row'| && row'[cam'[x / sets]].key == x
    {
      CamDecides(sets, i, row, cam, contents, x);
      TagsDiffer(x, k, sets);
    }
  }

  lemma FillAgrees<T(!new)>(sets: nat, i: nat, row: seq<Entry<T>>, cam: map<nat, nat>, contents: map<nat, T>, w: nat, k: nat, v: T)
    requires sets > 0 && Agrees(sets, i, row, cam, contents) && w < |row| && !row[w].valid
    requires k % sets == i && k !in contents
    ensures Agrees(sets, i, row[w := Entry(k, k / sets, true, v)], cam[k / sets := w], contents[k := v])
  {
    var e := Entry(k, k / sets, true, v);
    var row', cam', contents' := row[w := e], cam[k / sets := w], contents[k := v];
    CamDecides(sets, i, row, cam, contents, k);
    CountUpdate(row, w, e, IsValid());
    LargerSet(contents.Keys, k, sets, i);
    assert contents'.Keys == contents.Keys + {k};
    forall x | 0 <= x < |row'| ensures WayOk(sets, i, x, row'[x], cam', contents') {
      assert WayOk(sets, i, x, row[x], cam, contents);
    }
    forall x | x in contents' && x % sets == i
      ensures x / sets in cam' && cam'[x / sets] < |row'| && row'[cam'[x / sets]].key == x
    {
      if x != k {
        CamDecides(sets, i, row, cam, contents, x);
      }
    }
  }

  /** Keys of other sets do not matter to this one. */
  lemma OtherAgrees<T(!new)>(sets: nat, i: nat, row: seq<Entry<T>>, cam: map<nat, nat>, contents: map<nat, T>, after: map<nat, T>)
    requires sets > 0 && Agrees(sets, i, row, cam, contents)
    requires forall k: nat :: k % sets == i ==> Same(contents, after, k)
    ensures Agrees(sets, i, row, cam, after)
  {
    assert InSet(contents.Keys, sets, i) == InSet(after.Keys, sets, i) by {
      forall k: nat ensures k in InSet(contents.Keys, sets, i) <==> k in InSet(after.Keys, sets, i) {
        if k % sets == i {
          assert Same(contents, after, k);
        }
      }
    }
    forall w | 0 <= w < |row| ensures WayOk(sets, i, w, row[w], cam, after) {
      assert WayOk(sets, i, w, row[w], cam, contents);
      if row[w].valid {
        assert Same(contents, after, row[w].key);
      }
    }
    forall k | k in after && k % sets == i
      ensures k / sets in cam && cam[k / sets] < |row| && row[cam[k / sets]].key == k
    {
      assert Same(contents, after, k);
    }
  }

  ghost predicate Same<T(!new)>(a: map<nat, T>, b: map<nat, T>, k: nat) {
    (k in a <==> k in b) && (k in a ==> a[k] == b[k])
  }
}
