/** The session table of an engine pool: a dict from session keys to pinned engines. */
module Sessions {
  const SESSION_TTL := 600.0
  const MAX_SESSIONS := 4096
  const EXPIRY_BATCH := 512

  // An entry of _engine_sessions.
  datatype Pin = Pin(engine: nat, expiry: real)

  // The entries, and the keys in the order of their insertion.
  datatype Table = Table(pins: map<string, Pin>, order: seq<string>)

  const EMPTY := Table(map[], [])

  // The order lists every key once.
  ghost predicate TableOk(t: Table) {
    && (forall i, j :: 0 <= i < j < |t.order| ==> t.order[i] != t.order[j])
    && (forall k :: k in t.order <==> k in t.pins)
  }

  // Assigning to a key that is there keeps its place.
  function Put(t: Table, key: string, pin: Pin): Table {
    Table(t.pins[key := pin], if key in t.pins then t.order else t.order + [key])
  }

  predicate IsExpired(pins: map<string, Pin>, key: string, now: real) {
    key in pins && pins[key].expiry <= now
  }

  // The expired keys among these, in order.
  function Expired(pins: map<string, Pin>, keys: seq<string>, now: real): (r: seq<string>)
    ensures forall k :: k in r <==> k in keys && IsExpired(pins, k, now)
    ensures |r| <= |keys|
  {
    if keys == [] then []
    else
      var last := keys[|keys| - 1];
      Expired(pins, keys[..|keys| - 1], now) + if IsExpired(pins, last, now) then [last] else []
  }

  // The keys that go at once.
  function Batch(t: Table, now: real): seq<string> {
    var e := Expired(t.pins, t.order, now);
    if |e| <= EXPIRY_BATCH then e else e[..EXPIRY_BATCH]
  }

  function Without(keys: seq<string>, gone: set<string>): seq<string> {
    if keys == [] then []
    else
      var last := keys[|keys| - 1];
      Without(keys[..|keys| - 1], gone) + if last in gone then [] else [last]
  }

  function SetOf(s: seq<string>): set<string> {
    set k | k in s
  }

  function Delete(t: Table, gone: set<string>): Table {
    Table(t.pins - gone, Without(t.order, gone))
  }

  // `if len(...) > 4096`: a batch of expired keys goes.
  function Expire(t: Table, now: real): Table {
    if |t.pins| <= MAX_SESSIONS then t else Delete(t, SetOf(Batch(t, now)))
  }

  // Deleting keys one after the other.

  lemma WithoutMore(keys: seq<string>, last: string, gone: set<string>)
    ensures Without(keys + [last], gone) == Without(keys, gone) + if last in gone then [] else [last]
  {
    assert (keys + [last])[..|keys|] == keys;
  }

  lemma {:induction false} WithoutTwice(keys: seq<string>, a: set<string>, b: set<string>)
    ensures Without(Without(keys, a), b) == Without(keys, a + b)
  {
    if keys != [] {
      var init, last := keys[..|keys| - 1], keys[|keys| - 1];
      WithoutTwice(init, a, b);
      assert keys == init + [last];
      WithoutMore(init, last, a);
      WithoutMore(init, last, a + b);
      WithoutMore(Without(init, a), last, b);
      assert Without(init, a) + [] == Without(init, a) && Without(init, a + b) + [] == Without(init, a + b);
    }
  }

  lemma DeleteNothing(t: Table)
    ensures Delete(t, SetOf([])) == t
  {
    WithoutNothing(t.order);
    assert t.pins - {} == t.pins;
  }

  lemma {:induction false} WithoutNothing(keys: seq<string>)
    ensures Without(keys, SetOf([])) == keys
  {
    if keys != [] {
      WithoutNothing(keys[..|keys| - 1]);
    }
  }

  lemma DeleteOneMore(t: Table, keys: seq<string>, i: nat)
    requires i < |keys|
    ensures Delete(Delete(t, SetOf(keys[..i])), {keys[i]}) == Delete(t, SetOf(keys[..i + 1]))
  {
    var s := SetOf(keys[..i]);
    assert SetOf(keys[..i + 1]) == s + {keys[i]};
    WithoutTwice(t.order, s, {keys[i]});
    assert t.pins - s - {keys[i]} == t.pins - (s + {keys[i]});
  }

  // The table keeps its shape.

  predicate Distinct(s: seq<string>) {
    forall i, j :: 0 <= i < j < |s| ==> s[i] != s[j]
  }

  lemma PutKeepsTable(t: Table, key: string, pin: Pin)
    requires TableOk(t)
    ensures TableOk(Put(t, key, pin))
    ensures |Put(t, key, pin).pins| == |t.pins| + if key in t.pins then 0 else 1
  {
    if key in t.pins {
      assert t.pins[key := pin].Keys == t.pins.Keys;
    } else {
      assert t.pins[key := pin].Keys == t.pins.Keys + {key};
    }
  }

  lemma {:induction false} WithoutIs(keys: seq<string>, gone: set<string>)
    ensures forall k :: k in Without(keys, gone) <==> k in keys && k !in gone
    ensures Distinct(keys) ==> Distinct(Without(keys, gone))
  {
    if keys != [] {
      WithoutIs(keys[..|keys| - 1], gone);
    }
  }

  lemma {:induction false} ExpiredIsDistinct(pins: map<string, Pin>, keys: seq<string>, now: real)
    requires Distinct(keys)
    ensures Distinct(Expired(pins, keys, now))
  {
    if keys != [] {
      ExpiredIsDistinct(pins, keys[..|keys| - 1], now);
    }
  }

  lemma ExpireKeepsTable(t: Table, now: real)
    requires TableOk(t)
    ensures TableOk(Expire(t, now))
  {
    WithoutIs(t.order, SetOf(Batch(t, now)));
  }

  lemma {:induction false} SizeOfDistinct(s: seq<string>)
    requires Distinct(s)
    ensures |SetOf(s)| == |s|
  {
    if s != [] {
      var init := s[..|s| - 1];
      SizeOfDistinct(init);
      assert SetOf(s) == SetOf(init) + {s[|s| - 1]};
    }
  }

  /** What a table over its bound loses: as many entries as are expired, but at most the batch. */
  lemma ExpireSize(t: Table, now: real)
    requires TableOk(t) && |t.pins| > 4096
    ensures var n := |Expired(t.pins, t.order, now)|;
            |Expire(t, now).pins| == |t.pins| - if n <= 512 then n else 512
  {
    ExpiredIsDistinct(t.pins, t.order, now);
    var gone := Batch(t, now);
    SizeOfDistinct(gone);
    assert SetOf(gone) <= t.pins.Keys;
    assert (t.pins - SetOf(gone)).Keys == t.pins.Keys - SetOf(gone);
  }

  // Key a was inserted before key b.
  ghost predicate Older(order: seq<string>, a: string, b: string) {
    exists i, j :: 0 <= i < j < |order| && order[i] == a && order[j] == b
  }

  lemma {:induction false} WithoutKeepsAge(keys: seq<string>, gone: set<string>, a: string, b: string)
    requires Older(keys, a, b) && a !in gone && b !in gone
    ensures Older(Without(keys, gone), a, b)
  {
    var n := |keys| - 1;
    var init := keys[..n];
    var i, j :| 0 <= i < j < |keys| && keys[i] == a && keys[j] == b;
    var rest := Without(init, gone);
    if j < n {
      assert init[i] == a && init[j] == b;
      WithoutKeepsAge(init, gone, a, b);
      var k, l :| 0 <= k < l < |rest| && rest[k] == a && rest[l] == b;
      assert Without(keys, gone)[k] == a && Without(keys, gone)[l] == b;
    } else {
      WithoutIs(init, gone);
      assert init[i] == a;
      var k :| 0 <= k < |rest| && rest[k] == a;
      assert Without(keys, gone)[k] == a && Without(keys, gone)[|rest|] == b;
    }
  }

  // What is expired comes in the order of insertion.
  lemma {:induction false} ExpiredKeepsAge(pins: map<string, Pin>, keys: seq<string>, now: real, i: nat, j: nat)
    returns (k: nat, l: nat)
    requires i < j < |keys| && IsExpired(pins, keys[i], now) && IsExpired(pins, keys[j], now)
    ensures k < l < |Expired(pins, keys, now)|
    ensures Expired(pins, keys, now)[k] == keys[i] && Expired(pins, keys, now)[l] == keys[j]
  {
    var n := |keys| - 1;
    var e := Expired(pins, keys[..n], now);
    if j < n {
      k, l := ExpiredKeepsAge(pins, keys[..n], now, i, j);
    } else {
      assert keys[..n][i] in e;
      k :| 0 <= k < |e| && e[k] == keys[i];
      l := |e|;
    }
  }

  // The batch is a first part of what is expired.
  lemma OldestInBatch(t: Table, now: real, a: string, b: string)
    requires TableOk(t) && Older(t.order, a, b) && IsExpired(t.pins, a, now) && b in Batch(t, now)
    ensures a in Batch(t, now)
  {
    var batch := Batch(t, now);
    var i, j :| 0 <= i < j < |t.order| && t.order[i] == a && t.order[j] == b;
    var k, l := ExpiredKeepsAge(t.pins, t.order, now, i, j);
    var m :| 0 <= m < |batch| && batch[m] == b;
    ExpiredIsDistinct(t.pins, t.order, now);
    assert m == l;
    assert batch[k] == a;
  }

  /** The oldest go first: what a full table loses is a first part, by insertion, of what is expired; and what
      stays keeps its order. */
  lemma OldestExpireFirst(t: Table, now: real, a: string, b: string)
    requires TableOk(t) && Older(t.order, a, b)
    ensures var pins := Expire(t, now).pins;
            && (IsExpired(t.pins, a, now) && b !in pins ==> a !in pins)
            && (a in pins && b in pins ==> Older(Expire(t, now).order, a, b))
  {
    if |t.pins| > 4096 {
      var gone := SetOf(Batch(t, now));
      if IsExpired(t.pins, a, now) && b in gone {
        OldestInBatch(t, now, a, b);
      }
      if a !in gone && b !in gone {
        WithoutKeepsAge(t.order, gone, a, b);
      }
    }
  }

  /** A new key is the youngest, and a key stored again keeps its age. */
  lemma PutKeepsAge(t: Table, key: string, pin: Pin, a: string, b: string)
    requires TableOk(t) && a in t.pins
    ensures b in t.pins ==> (Older(Put(t, key, pin).order, a, b) <==> Older(t.order, a, b))
    ensures key !in t.pins ==> Older(Put(t, key, pin).order, a, key)
  {
    var order := Put(t, key, pin).order;
    assert t.order <= order;
    if key !in t.pins {
      var i :| 0 <= i < |t.order| && t.order[i] == a;
      assert order[i] == a && order[|t.order|] == key;
    }
    if Older(t.order, a, b) {
      var i, j :| 0 <= i < j < |t.order| && t.order[i] == a && t.order[j] == b;
      assert order[i] == a && order[j] == b;
    }
    if b in t.pins && Older(order, a, b) {
      var i, j :| 0 <= i < j < |order| && order[i] == a && order[j] == b;
      assert t.order[i] == a && t.order[j] == b;
    }
  }

  // No entry is expired.
  predicate Live(t: Table, now: real) {
    forall k :: k in t.pins ==> t.pins[k].expiry > now
  }

  lemma ExpireDropsExpired(t: Table, now: real)
    ensures forall k :: k in Expire(t, now).pins ==> k in t.pins && Expire(t, now).pins[k] == t.pins[k]
    ensures forall k :: k in t.pins && t.pins[k].expiry > now ==> k in Expire(t, now).pins
    ensures Live(t, now) ==> Expire(t, now).pins == t.pins
  {
    var gone := SetOf(Batch(t, now));
    assert forall k :: k in gone ==> k in Expired(t.pins, t.order, now);
    if Live(t, now) {
      assert gone == {};
      assert t.pins - gone == t.pins;
    }
  }

  lemma NothingExpired(t: Table, now: real)
    requires TableOk(t)
    ensures Expired(t.pins, t.order, now) == [] <==> Live(t, now)
  {
    var x := Expired(t.pins, t.order, now);
    if x != [] {
      assert x[0] in x;
    } else {
      forall k | k in t.pins ensures t.pins[k].expiry > now {
        assert k in t.order && k !in x;
      }
    }
  }

  /** One entry over its bound, the table gets back under it if and only if some entry is expired. */
  lemma ExpireMakesRoom(t: Table, now: real)
    requires TableOk(t) && |t.pins| == 4097
    ensures |Expire(t, now).pins| <= 4096 <==> !Live(t, now)
  {
    ExpireSize(t, now);
    NothingExpired(t, now);
  }
}
