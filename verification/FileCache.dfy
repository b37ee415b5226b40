// The generated-file cache of backend/chat/files.py: a bounded queue. What is
// held is the longest unexpired suffix of everything ever stored, at most 200.
module FileCaches {
  import opened Base

  const TTL := 600.0
  const MAX_ENTRIES := 200

  /** file_id -> (bytes, filename, mime, expires_at) */
  datatype Entry = Entry(id: Id, content: seq<bv8>, filename: string, mime: string, expires: real)

  ghost predicate Ordered(h: seq<Entry>) {
    && (forall i, j | 0 <= i < j < |h| :: h[i].expires <= h[j].expires)
    && (forall i, j | 0 <= i < j < |h| :: h[i].id != h[j].id)
  }

  /** `c` is the longest suffix of `h` that has not expired and fits in `room`. */
  ghost predicate Held(h: seq<Entry>, now: real, room: nat, c: seq<Entry>) {
    && |c| <= |h| && c == h[|h| - |c|..]
    && forall i | 0 <= i < |h| :: i >= |h| - |c| <==> Stays(h, i, now, room)
  }

  /** Entry i has neither expired nor been pushed out by `room` later ones. */
  ghost predicate Stays(h: seq<Entry>, i: int, now: real, room: nat) {
    0 <= i < |h| && h[i].expires >= now && |h| - i <= room
  }

  /** `_evict_expired`: the entries that are left. */
  function Unexpired(c: seq<Entry>, now: real): seq<Entry> {
    if c == [] then [] else (if c[0].expires < now then [] else [c[0]]) + Unexpired(c[1..], now)
  }

  lemma {:induction false} UnexpiredIsSuffix(c: seq<Entry>, now: real)
    requires Ordered(c)
    ensures |Unexpired(c, now)| <= |c| && Unexpired(c, now) == c[|c| - |Unexpired(c, now)|..]
    ensures forall i | 0 <= i < |c| :: i >= |c| - |Unexpired(c, now)| <==> c[i].expires >= now
  {
    if c != [] {
      var rest := c[1..];
      assert Ordered(rest);
      UnexpiredIsSuffix(rest, now);
      if c[0].expires >= now {
        AllUnexpired(c, now);
      } else {
        forall i | 0 <= i < |c| ensures i >= |c| - |Unexpired(rest, now)| <==> c[i].expires >= now {
          if i > 0 { assert c[i] == rest[i - 1]; }
        }
      }
    }
  }

  lemma {:induction false} AllUnexpired(c: seq<Entry>, now: real)
    requires Ordered(c) && c != [] && c[0].expires >= now
    ensures Unexpired(c, now) == c
  {
    if |c| > 1 {
      var rest := c[1..];
      assert Ordered(rest) && rest[0] == c[1];
      AllUnexpired(rest, now);
    }
    assert c == [c[0]] + c[1..];
  }

  /** Expiry later on leaves what is held at that later time. */
  lemma HeldLater(h: seq<Entry>, before: real, now: real, room: nat, c: seq<Entry>)
    requires Ordered(h) && before <= now && Held(h, before, room, c)
    ensures Held(h, now, room, Unexpired(c, now))
  {
    var left := Unexpired(c, now);
    var d := |h| - |c|;
    assert Ordered(c) by { assert forall i | 0 <= i < |c| :: c[i] == h[d + i]; }
    UnexpiredIsSuffix(c, now);
    forall i | 0 <= i < |h| ensures i >= |h| - |left| <==> Stays(h, i, now, room) {
      if i >= d {
        assert c[i - d] == h[i];
        assert Stays(h, i, before, room);
      } else {
        assert !Stays(h, i, before, room);
      }
    }
  }

  /** A full cache gives up its oldest entry. */
  lemma RoomForOne(h: seq<Entry>, now: real, room: nat, c: seq<Entry>)
    requires Held(h, now, room, c) && room > 0
    ensures |c| <= room
    ensures Held(h, now, room - 1, if |c| >= room then c[1..] else c)
  {
    var d := |h| - |c|;
    if c != [] { assert Stays(h, d, now, room); }
    var less, left := room - 1, if |c| >= room then c[1..] else c;
    forall i | 0 <= i < |h| ensures i >= |h| - |left| <==> Stays(h, i, now, less) {
      assert Stays(h, i, now, less) <==> Stays(h, i, now, room) && |h| - i != room;
    }
  }

  lemma HeldMore(h: seq<Entry>, now: real, room: nat, c: seq<Entry>, e: Entry)
    requires Held(h, now, room, c) && e.expires >= now
    ensures Held(h + [e], now, room + 1, c + [e])
  {
    var h', more := h + [e], room + 1;
    forall i | 0 <= i < |h'| ensures i >= |h'| - |c + [e]| <==> Stays(h', i, now, more) {
      if i < |h| { assert h'[i] == h[i] && (Stays(h, i, now, room) <==> i >= |h| - |c|); }
    }
  }

  /** `min(_cache, key=...)`: the first entry with the least expiry. */
  method Oldest(c: seq<Entry>) returns (k: nat)
    requires c != []
    ensures k < |c| && (forall i | 0 <= i < |c| :: c[k].expires <= c[i].expires)
    ensures forall i | 0 <= i < k :: c[i].expires > c[k].expires
  {
    k := 0;
    for i := 1 to |c|
      invariant k < i
      invariant forall j | 0 <= j < i :: c[k].expires <= c[j].expires
      invariant forall j | 0 <= j < k :: c[j].expires > c[k].expires
    {
      if c[i].expires < c[k].expires { k := i; }
    }
  }

  method Evicted(c: seq<Entry>, now: real) returns (kept: seq<Entry>)
    ensures kept == Unexpired(c, now)
  {
    kept := [];
    assert c[0..] == c;
    for i := 0 to |c|
      invariant kept + Unexpired(c[i..], now) == Unexpired(c, now)
    {
      assert c[i..][1..] == c[i + 1..];
      if !(c[i].expires < now) { kept := kept + [c[i]]; }
    }
    assert kept + [] == kept;
  }

  lemma FirstIsOldest(h: seq<Entry>, now: real, c: seq<Entry>, k: nat)
    requires Ordered(h) && Held(h, now, MAX_ENTRIES, c) && k < |c| && forall i | 0 <= i < k :: c[i].expires > c[k].expires
    ensures k == 0 && c[..k] + c[k + 1..] == c[1..]
  {
    var d := |h| - |c|;
    assert c[0] == h[d] && c[k] == h[d + k];
  }

  lemma OrderedMore(h: seq<Entry>, e: Entry)
    requires Ordered(h) && (forall x | x in h :: x.expires <= e.expires && x.id != e.id)
    ensures Ordered(h + [e])
  {
  }

  class FileCache {
    var cache: seq<Entry>
    ghost var history: seq<Entry>            // every file ever stored
    ghost var cut: real                      // when expiry was last looked at
    ghost var clock: real

    ghost predicate Valid() reads this {
      && Ordered(history) && cut <= clock
      && (forall e | e in history :: e.expires <= clock + TTL)
      && Held(history, cut, MAX_ENTRIES, cache)
    }

    constructor ()
      ensures Valid() && history == [] && cache == []
    {
      cache, history, cut, clock := [], [], 0.0, 0.0;
    }

    method EvictExpired(now: real)
      requires Valid() && clock <= now
      modifies this
      ensures Valid() && history == old(history) && cut == now && clock == now
    {
      HeldLater(history, cut, now, MAX_ENTRIES, cache);
      cache := Evicted(cache, now);
      cut, clock := now, now;
    }

    /** `fileId` is the fresh uuid; the clock is read before eviction and again for the expiry. */
    method StoreFile(content: seq<bv8>, filename: string, mime: string, fileId: Id, now: real, later: real)
      requires Valid() && clock <= now <= later && forall e | e in history :: e.id != fileId
      modifies this
      ensures Valid() && cut == now && clock == later && |cache| <= MAX_ENTRIES
      ensures history == old(history) + [Entry(fileId, content, filename, mime, later + TTL)]
      ensures Held(history, now, MAX_ENTRIES, cache)
    {
      hide Held, Ordered;
      EvictExpired(now);
      ghost var h := history;
      RoomForOne(h, now, MAX_ENTRIES, cache);
      if |cache| >= MAX_ENTRIES {
        var k := Oldest(cache);
        FirstIsOldest(h, now, cache, k);
        cache := cache[..k] + cache[k + 1..];
      }
      var e := Entry(fileId, content, filename, mime, later + TTL);
      HeldMore(h, now, MAX_ENTRIES - 1, cache, e);
      OrderedMore(h, e);
      cache := cache + [e];
      history := h + [e];
      clock := later;
      RoomForOne(history, now, MAX_ENTRIES, cache);
    }

    /** A file is found until it expires or 200 later ones have been stored. */
    method GetFile(fileId: Id, now: real) returns (r: Option<Entry>)
      requires Valid() && clock <= now
      modifies this
      ensures Valid() && history == old(history)
      ensures r.Some? ==> r.value in history && r.value.id == fileId
      ensures r.Some? <==> exists i :: Stays(history, i, now, MAX_ENTRIES) && history[i].id == fileId
    {
      EvictExpired(now);
      ghost var d := |history| - |cache|;
      r := None;
      for i := 0 to |cache|
        invariant Valid() && history == old(history) && cut == now && d == |history| - |cache|
        invariant forall j | 0 <= j < i :: cache[j].id != fileId
      {
        assert cache[i] == history[d + i];
        if cache[i].id == fileId {
          assert Stays(history, d + i, now, MAX_ENTRIES);
          return Some(cache[i]);
        }
      }
      forall i | Stays(history, i, now, MAX_ENTRIES) ensures history[i].id != fileId {
        assert history[i] == cache[i - d];
      }
    }
  }
}
