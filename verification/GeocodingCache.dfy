/**
 The least-recently-used cache around the geocoder. Its map remembers insertion order: setting a new
 key appends, setting a present one keeps its place, and the first key is the one evicted.
 */
module GeocodingCache {
  import opened Wrappers

  type Key = string
  datatype Coordinates = Coordinates(latitude: real, longitude: real)
  datatype Entry = Entry(key: Key, value: Coordinates)

  /** The geocoder behind the cache: its answer depends on the address alone, or it fails. */
  type Delegate = Key -> Option<Coordinates>

  // ---------- an insertion-ordered map ----------

  function Keys(cache: seq<Entry>): (r: seq<Key>)
    ensures |r| == |cache| && forall i | 0 <= i < |r| :: r[i] == cache[i].key
  {
    seq(|cache|, i requires 0 <= i < |cache| => cache[i].key)
  }

  function Get(cache: seq<Entry>, k: Key): (r: Option<Coordinates>)
    ensures r.Some? <==> k in Keys(cache)
    ensures r.Some? ==> Entry(k, r.value) in cache
  {
    if cache == [] then None
    else if cache[0].key == k then
      assert k == Keys(cache)[0];
      Some(cache[0].value)
    else
      assert Keys(cache) == [cache[0].key] + Keys(cache[1..]);
      Get(cache[1..], k)
  }

  function Delete(cache: seq<Entry>, k: Key): seq<Entry> {
    if cache == [] then []
    else if cache[0].key == k then Delete(cache[1..], k)
    else [cache[0]] + Delete(cache[1..], k)
  }

  function Set(cache: seq<Entry>, k: Key, v: Coordinates): seq<Entry> {
    if cache == [] then [Entry(k, v)]
    else if cache[0].key == k then [Entry(k, v)] + cache[1..]
    else [cache[0]] + Set(cache[1..], k, v)
  }

  function Stored(cache: seq<Entry>, k: Key, v: Coordinates, maxEntries: int): seq<Entry> {
    var grown := Set(cache, k, v);
    if |grown| > maxEntries && |grown| > 0 then Delete(grown, grown[0].key) else grown
  }

  function Touched(cache: seq<Entry>, k: Key, v: Coordinates): seq<Entry> {
    Set(Delete(cache, k), k, v)
  }

  class CachingGeocodingProvider {
    const maxEntries: int
    var cache: seq<Entry>

    constructor (maxEntries: int)
      ensures this.maxEntries == maxEntries && cache == []
    {
      this.maxEntries := maxEntries;
      cache := [];
    }

    method Touch(k: Key, v: Coordinates)
      modifies this
      ensures cache == Touched(old(cache), k, v)
    {
      cache := Delete(cache, k);
      cache := Set(cache, k, v);
    }

    method Store(k: Key, v: Coordinates)
      modifies this
      ensures cache == Stored(old(cache), k, v, maxEntries)
    {
      cache := Set(cache, k, v);
      if |cache| > maxEntries {
        if |cache| > 0 {
          var leastRecentlyUsed := cache[0].key;
          cache := Delete(cache, leastRecentlyUsed);
        }
      }
    }

    /** A call that no other overlaps. */
    method Geocode(k: Key, delegate: Delegate) returns (answer: Option<Coordinates>)
      modifies this
      ensures (cache, answer) == Geocoded(old(cache), k, delegate, maxEntries)
    {
      answer := Get(cache, k);
      if answer.Some? {
        Touch(k, answer.value);
        return;
      }
      answer := delegate(k);
      if answer.Some? {
        Store(k, answer.value);
      }
    }
  }

  function Geocoded(cache: seq<Entry>, k: Key, delegate: Delegate, maxEntries: int): (seq<Entry>, Option<Coordinates>) {
    var cached := Get(cache, k);
    if cached.Some? then (Touched(cache, k, cached.value), cached)
    else
      var result := delegate(k);
      if result.Some? then (Stored(cache, k, result.value, maxEntries), result) else (cache, None)
  }

  // ---------- what least recently used means ----------

  function Without(keys: seq<Key>, k: Key): seq<Key> {
    if keys == [] then [] else (if keys[0] == k then [] else [keys[0]]) + Without(keys[1..], k)
  }

  /** The distinct keys of a history, in order of last use. */
  function Recency(history: seq<Key>): seq<Key> {
    if history == [] then []
    else
      var k := history[|history| - 1];
      Without(Recency(history[..|history| - 1]), k) + [k]
  }

  function Last(keys: seq<Key>, n: int): seq<Key> {
    if n <= 0 then [] else if |keys| <= n then keys else keys[|keys| - n..]
  }

  predicate Distinct(keys: seq<Key>) {
    forall i, j | 0 <= i < j < |keys| :: keys[i] != keys[j]
  }

  function CacheAfter(requests: seq<Key>, delegate: Delegate, maxEntries: int): seq<Entry> {
    if requests == [] then []
    else Geocoded(CacheAfter(requests[..|requests| - 1], delegate, maxEntries), requests[|requests| - 1], delegate,
                  maxEntries).0
  }

  /** The requests the geocoder can answer; a failure leaves no trace. */
  function Answerable(requests: seq<Key>, delegate: Delegate): seq<Key> {
    if requests == [] then []
    else
      var k := requests[|requests| - 1];
      Answerable(requests[..|requests| - 1], delegate) + if delegate(k).Some? then [k] else []
  }

  lemma {:induction false} WithoutConcat(a: seq<Key>, b: seq<Key>, k: Key)
    ensures Without(a + b, k) == Without(a, k) + Without(b, k)
  {
    if a == [] {
      assert a + b == b;
    } else {
      assert (a + b)[1..] == a[1..] + b;
      WithoutConcat(a[1..], b, k);
    }
  }

  lemma {:induction false} WithoutIs(keys: seq<Key>, k: Key)
    requires Distinct(keys)
    ensures k !in keys ==> Without(keys, k) == keys
    ensures k in keys ==> |Without(keys, k)| == |keys| - 1
    ensures Distinct(Without(keys, k)) && forall x :: x in Without(keys, k) <==> x in keys && x != k
  {
    if keys != [] {
      assert Distinct(keys[1..]);
      assert keys == [keys[0]] + keys[1..];
      WithoutIs(keys[1..], k);
      var rest := Without(keys[1..], k);
      assert keys[0] !in rest;
      assert Without(keys, k) == if keys[0] == k then rest else [keys[0]] + rest;
    }
  }

  lemma {:induction false} RecencyIsDistinct(history: seq<Key>)
    ensures Distinct(Recency(history))
    ensures forall x :: x in Recency(history) <==> x in history
  {
    if history != [] {
      var before := history[..|history| - 1];
      assert history == before + [history[|history| - 1]];
      RecencyIsDistinct(before);
      WithoutIs(Recency(before), history[|history| - 1]);
    }
  }

  lemma {:induction false} WithoutAbsent(keys: seq<Key>, k: Key)
    requires k !in keys
    ensures Without(keys, k) == keys
  {
    if keys != [] {
      assert keys[0] in keys;
      assert forall x | x in keys[1..] :: x in keys;
      WithoutAbsent(keys[1..], k);
    }
  }

  lemma DistinctHalves(a: seq<Key>, b: seq<Key>, k: Key)
    requires Distinct(a + b) && k in b
    ensures k !in a
  {
    var j :| 0 <= j < |b| && b[j] == k;
    forall i | 0 <= i < |a|
      ensures a[i] != k
    {
      assert (a + b)[i] == a[i] && (a + b)[|a| + j] == b[j];
    }
  }

  lemma DistinctTail(a: seq<Key>, b: seq<Key>)
    requires Distinct(a + b)
    ensures Distinct(b)
  {
    assert forall i | 0 <= i < |b| :: b[i] == (a + b)[|a| + i];
  }

  /** The part of the keys that Last leaves out. */
  function Cut(keys: seq<Key>, n: int): (cut: seq<Key>)
    ensures keys == cut + Last(keys, n)
    ensures n > 0 && cut != [] ==> |Last(keys, n)| == n
  {
    keys[..|keys| - |Last(keys, n)|]
  }

  lemma LastOfConcat(a: seq<Key>, b: seq<Key>, n: int)
    requires |b| <= n && (a == [] || |b| == n)
    ensures Last(a + b, n) == b
  {
    assert a + b == b || (a + b)[|a|..] == b;
  }

  /** Without a key of the last n, the keys cut off are as they were and the last n have lost one. */
  lemma WithoutKept(keys: seq<Key>, k: Key, n: int)
    requires Distinct(keys) && k in Last(keys, n)
    ensures Without(keys, k) == Cut(keys, n) + Without(Last(keys, n), k)
    ensures |Without(Last(keys, n), k)| == |Last(keys, n)| - 1
  {
    var cut, kept := Cut(keys, n), Last(keys, n);
    DistinctHalves(cut, kept, k);
    DistinctTail(cut, kept);
    WithoutConcat(cut, kept, k);
    WithoutAbsent(cut, k);
    WithoutIs(kept, k);
  }

  /** Using a key of the last n moves it to their end. */
  lemma LastMovesWithin(keys: seq<Key>, k: Key, n: int)
    requires Distinct(keys) && k in Last(keys, n)
    ensures Last(Without(keys, k) + [k], n) == Without(Last(keys, n), k) + [k]
  {
    WithoutKept(keys, k, n);
    var moved := Without(Last(keys, n), k) + [k];
    assert Without(keys, k) + [k] == Cut(keys, n) + moved;
    LastOfConcat(Cut(keys, n), moved, n);
  }

  lemma {:induction false} PushedBehind(cut: seq<Key>, kept: seq<Key>, k: Key)
    requires k !in kept
    ensures Without(cut + kept, k) + [k] == Without(cut, k) + (kept + [k])
  {
    WithoutConcat(cut, kept, k);
    WithoutAbsent(kept, k);
  }

  /** Using a key not among the last n adds it, and pushes the first of them out if they were n. */
  lemma {:induction false} LastMovesIn(keys: seq<Key>, k: Key, n: int)
    requires k !in Last(keys, n)
    ensures
      var grown := Last(keys, n) + [k];
      Last(Without(keys, k) + [k], n) == if |grown| > n then grown[1..] else grown
  {
    if n > 0 {
      var cut, kept := Cut(keys, n), Last(keys, n);
      PushedBehind(cut, kept, k);
      LastAfterPush(Without(cut, k), kept, k, n);
    }
  }

  lemma LastAfterPush(front: seq<Key>, kept: seq<Key>, k: Key, n: int)
    requires 0 < n && |kept| <= n && (front == [] || |kept| == n)
    ensures Last(front + (kept + [k]), n) == if |kept| == n then (kept + [k])[1..] else kept + [k]
  {
    var grown := kept + [k];
    if |kept| == n {
      var shrunk := grown[1..];
      assert front + grown == (front + [grown[0]]) + shrunk;
      LastOfConcat(front + [grown[0]], shrunk, n);
    } else {
      LastOfConcat(front, grown, n);
    }
  }

  lemma {:induction false} DeleteKeys(cache: seq<Entry>, k: Key)
    ensures Keys(Delete(cache, k)) == Without(Keys(cache), k)
  {
    if cache != [] {
      DeleteKeys(cache[1..], k);
      assert Keys(cache)[1..] == Keys(cache[1..]);
      if cache[0].key != k {
        assert Keys([cache[0]] + Delete(cache[1..], k)) == [cache[0].key] + Keys(Delete(cache[1..], k));
      }
    }
  }

  lemma {:induction false} SetKeys(cache: seq<Entry>, k: Key, v: Coordinates)
    ensures Keys(Set(cache, k, v)) == if k in Keys(cache) then Keys(cache) else Keys(cache) + [k]
  {
    if cache != [] {
      SetKeys(cache[1..], k, v);
      assert Keys(cache) == [cache[0].key] + Keys(cache[1..]);
      if cache[0].key != k {
        assert Keys(Set(cache, k, v)) == [cache[0].key] + Keys(Set(cache[1..], k, v));
      }
    }
  }

  /** One answerable call, in terms of the keys alone. */
  lemma CallMovesKeys(cache: seq<Entry>, k: Key, delegate: Delegate, maxEntries: int)
    requires delegate(k).Some? && Distinct(Keys(cache))
    ensures
      var keys, after := Keys(cache), Keys(Geocoded(cache, k, delegate, maxEntries).0);
      var grown := keys + [k];
      after == if k in keys then Without(keys, k) + [k] else if |grown| > maxEntries then grown[1..] else grown
  {
    WithoutIs(Keys(cache), k);
    DeleteKeys(cache, k);
    var cached := Get(cache, k);
    if cached.Some? {
      SetKeys(Delete(cache, k), k, cached.value);
    } else {
      var v := delegate(k).value;
      SetKeys(cache, k, v);
      var grown := Set(cache, k, v);
      assert Keys(grown) == Keys(cache) + [k];
      assert Distinct(Keys(grown));
      DeleteKeys(grown, grown[0].key);
      WithoutHead(Keys(grown));
    }
  }

  lemma WithoutHead(keys: seq<Key>)
    requires Distinct(keys) && keys != []
    ensures Without(keys, keys[0]) == keys[1..]
  {
    assert Distinct(keys[1..]);
    WithoutIs(keys[1..], keys[0]);
  }

  /** The cache holds exactly the last maxEntries distinct answered keys, in order of last use. */
  lemma {:induction false} CacheIsTheMostRecent(requests: seq<Key>, delegate: Delegate, maxEntries: int)
    ensures Keys(CacheAfter(requests, delegate, maxEntries)) ==
              Last(Recency(Answerable(requests, delegate)), maxEntries)
    ensures Faithful(CacheAfter(requests, delegate, maxEntries), delegate)
  {
    if requests != [] {
      var before, k := requests[..|requests| - 1], requests[|requests| - 1];
      var cache := CacheAfter(before, delegate, maxEntries);
      var history := Answerable(before, delegate);
      CacheIsTheMostRecent(before, delegate, maxEntries);
      RecencyIsDistinct(history);
      GeocodedIsFaithful(cache, k, delegate, maxEntries);
      if delegate(k).Some? {
        assert (history + [k])[..|history|] == history;
        if k in Last(Recency(history), maxEntries) {
          LastMovesWithin(Recency(history), k, maxEntries);
        } else {
          LastMovesIn(Recency(history), k, maxEntries);
        }
        CallMovesKeys(cache, k, delegate, maxEntries);
      } else {
        assert history + [] == history;
        assert Get(cache, k).None?;
      }
    }
  }

  /** Every entry is what the geocoder would say. */
  predicate Faithful(cache: seq<Entry>, delegate: Delegate) {
    forall i | 0 <= i < |cache| :: delegate(cache[i].key) == Some(cache[i].value)
  }

  lemma {:induction false} DeleteIsFaithful(cache: seq<Entry>, k: Key, delegate: Delegate)
    requires Faithful(cache, delegate)
    ensures Faithful(Delete(cache, k), delegate)
  {
    if cache != [] {
      assert Faithful(cache[1..], delegate);
      DeleteIsFaithful(cache[1..], k, delegate);
    }
  }

  lemma {:induction false} SetIsFaithful(cache: seq<Entry>, k: Key, v: Coordinates, delegate: Delegate)
    requires Faithful(cache, delegate) && delegate(k) == Some(v)
    ensures Faithful(Set(cache, k, v), delegate)
  {
    if cache != [] {
      assert Faithful(cache[1..], delegate);
      SetIsFaithful(cache[1..], k, v, delegate);
    }
  }

  lemma GetIsFaithful(cache: seq<Entry>, k: Key, delegate: Delegate)
    requires Faithful(cache, delegate)
    ensures Get(cache, k).Some? ==> Get(cache, k) == delegate(k)
  {
    var cached := Get(cache, k);
    if cached.Some? {
      var i :| 0 <= i < |cache| && cache[i] == Entry(k, cached.value);
    }
  }

  lemma GeocodedIsFaithful(cache: seq<Entry>, k: Key, delegate: Delegate, maxEntries: int)
    requires Faithful(cache, delegate)
    ensures var (after, answer) := Geocoded(cache, k, delegate, maxEntries);
            Faithful(after, delegate) && answer == delegate(k)
  {
    GetIsFaithful(cache, k, delegate);
    if delegate(k).Some? {
      var v := delegate(k).value;
      DeleteIsFaithful(cache, k, delegate);
      SetIsFaithful(Delete(cache, k), k, v, delegate);
      SetIsFaithful(cache, k, v, delegate);
      var grown := Set(cache, k, v);
      if grown != [] {
        DeleteIsFaithful(grown, grown[0].key, delegate);
      }
    }
  }

  // ---------- the same answers as a memo that never evicts ----------

  function MemoAfter(requests: seq<Key>, delegate: Delegate): map<Key, Coordinates> {
    if requests == [] then map[]
    else
      var memo := MemoAfter(requests[..|requests| - 1], delegate);
      var k := requests[|requests| - 1];
      if k in memo || delegate(k).None? then memo else memo[k := delegate(k).value]
  }

  function MemoAnswer(memo: map<Key, Coordinates>, k: Key, delegate: Delegate): Option<Coordinates> {
    if k in memo then Some(memo[k]) else delegate(k)
  }

  lemma {:induction false} MemoIsFaithful(requests: seq<Key>, delegate: Delegate)
    ensures forall k | k in MemoAfter(requests, delegate) :: delegate(k) == Some(MemoAfter(requests, delegate)[k])
  {
    if requests != [] {
      MemoIsFaithful(requests[..|requests| - 1], delegate);
    }
  }

  /** Evicting is never seen in an answer. */
  lemma AnswersAsTheMemo(requests: seq<Key>, k: Key, delegate: Delegate, maxEntries: int)
    ensures
      var cache := CacheAfter(requests, delegate, maxEntries);
      Geocoded(cache, k, delegate, maxEntries).1 == MemoAnswer(MemoAfter(requests, delegate), k, delegate)
  {
    CacheIsTheMostRecent(requests, delegate, maxEntries);
    GeocodedIsFaithful(CacheAfter(requests, delegate, maxEntries), k, delegate, maxEntries);
    MemoIsFaithful(requests, delegate);
  }

  // ---------- overlapping calls ----------

  datatype Call = Asking(key: Key) | Answered(key: Key, answer: Option<Coordinates>)
  datatype World = World(cache: seq<Entry>, calls: map<nat, Call>)

  /** A call looks the key up at once; on a miss the geocoder answers later, or fails. */
  datatype Step = Begin(call: nat, key: Key) | Return(call: nat, failed: bool)

  predicate Enabled(w: World, step: Step) {
    match step
    case Begin(c, _) => c !in w.calls
    case Return(c, _) => c in w.calls && w.calls[c].Asking?
  }

  function Apply(w: World, step: Step, delegate: Delegate, maxEntries: int): World
    requires Enabled(w, step)
  {
    match step
    case Begin(c, k) =>
      var cached := Get(w.cache, k);
      if cached.Some? then World(Touched(w.cache, k, cached.value), w.calls[c := Answered(k, cached)])
      else w.(calls := w.calls[c := Asking(k)])
    case Return(c, failed) =>
      var k := w.calls[c].key;
      if failed || delegate(k).None? then w.(calls := w.calls[c := Answered(k, None)])
      else World(Stored(w.cache, k, delegate(k).value, maxEntries), w.calls[c := Answered(k, delegate(k))])
  }

  ghost predicate Inv(w: World, delegate: Delegate, maxEntries: int) {
    && CacheFits(w.cache, delegate, maxEntries)
    && forall c | c in w.calls && w.calls[c].Answered? && w.calls[c].answer.Some? ::
         w.calls[c].answer == delegate(w.calls[c].key)
  }

  ghost predicate CacheFits(cache: seq<Entry>, delegate: Delegate, maxEntries: int) {
    Distinct(Keys(cache)) && (|cache| <= maxEntries || cache == []) && Faithful(cache, delegate)
  }

  lemma TouchFits(cache: seq<Entry>, k: Key, delegate: Delegate, maxEntries: int)
    requires CacheFits(cache, delegate, maxEntries) && Get(cache, k).Some?
    ensures CacheFits(Touched(cache, k, Get(cache, k).value), delegate, maxEntries)
    ensures Get(cache, k) == delegate(k)
  {
    var v := Get(cache, k).value;
    GetIsFaithful(cache, k, delegate);
    WithoutIs(Keys(cache), k);
    DeleteKeys(cache, k);
    DeleteIsFaithful(cache, k, delegate);
    SetKeys(Delete(cache, k), k, v);
    SetIsFaithful(Delete(cache, k), k, v, delegate);
    assert |Keys(Touched(cache, k, v))| == |Keys(cache)|;
  }

  /** Also when another call stored the same key while this one was asking. */
  lemma StoreFits(cache: seq<Entry>, k: Key, delegate: Delegate, maxEntries: int)
    requires CacheFits(cache, delegate, maxEntries) && delegate(k).Some?
    ensures CacheFits(Stored(cache, k, delegate(k).value, maxEntries), delegate, maxEntries)
  {
    var v := delegate(k).value;
    SetKeys(cache, k, v);
    SetIsFaithful(cache, k, v, delegate);
    var grown := Set(cache, k, v);
    assert |Keys(grown)| > 0 && Distinct(Keys(grown));
    DeleteKeys(grown, grown[0].key);
    DeleteIsFaithful(grown, grown[0].key, delegate);
    WithoutHead(Keys(grown));
    assert |Keys(Delete(grown, grown[0].key))| == |Keys(grown)| - 1;
    assert |Keys(grown)| <= |Keys(cache)| + 1;
  }

  lemma StepKeepsInv(w: World, step: Step, delegate: Delegate, maxEntries: int)
    requires Inv(w, delegate, maxEntries) && Enabled(w, step)
    ensures Inv(Apply(w, step, delegate, maxEntries), delegate, maxEntries)
  {
    var k := if step.Begin? then step.key else w.calls[step.call].key;
    if step.Begin? && Get(w.cache, k).Some? {
      TouchFits(w.cache, k, delegate, maxEntries);
    } else if step.Return? && delegate(k).Some? {
      StoreFits(w.cache, k, delegate, maxEntries);
    }
  }

  /** However calls overlap, the cache stays within its bound and every answer is the geocoder's. */
  lemma {:induction false} OverlapIsSafe(worlds: seq<World>, steps: seq<Step>, delegate: Delegate, maxEntries: int,
                                         i: nat)
    requires |worlds| == |steps| + 1 && worlds[0] == World([], map[]) && i < |worlds|
    requires forall j | 0 <= j < |steps| ::
               Enabled(worlds[j], steps[j]) && worlds[j + 1] == Apply(worlds[j], steps[j], delegate, maxEntries)
    ensures Inv(worlds[i], delegate, maxEntries)
  {
    if i > 0 {
      OverlapIsSafe(worlds, steps, delegate, maxEntries, i - 1);
      StepKeepsInv(worlds[i - 1], steps[i - 1], delegate, maxEntries);
    }
  }
}
