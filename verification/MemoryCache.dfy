/** The in-memory cache backend: an LRU list bounded by items and by bytes. */
module MemoryCache {
  import opened Records

  const DEFAULT_MAX_ITEMS := 10_000
  const DEFAULT_MAX_BYTES := 0x400_0000

  /** `expiresAt` is 0 for an entry that does not expire. */
  datatype Item = Item(key: string, value: string, expiresAt: Time, weight: nat)

  predicate Expired(expiresAt: Time, now: Time) {
    expiresAt != 0 && now >= expiresAt
  }

  /** What was last set for a key, cached or not. */
  datatype Setting = Setting(value: string, expiresAt: Time)

  function TotalWeight(items: seq<Item>): nat {
    if items == [] then 0 else items[0].weight + TotalWeight(items[1..])
  }

  lemma {:induction false} WeightOfSum(a: seq<Item>, b: seq<Item>)
    ensures TotalWeight(a + b) == TotalWeight(a) + TotalWeight(b)
  {
    if a == [] {
      assert a + b == b;
    } else {
      WeightOfSum(a[1..], b);
      assert (a + b)[1..] == a[1..] + b;
    }
  }

  /** The index of a key, or the length. */
  function IndexOf(items: seq<Item>, key: string): (i: nat)
    ensures i <= |items| && (i < |items| ==> items[i].key == key)
    ensures forall j :: 0 <= j < i ==> items[j].key != key
  {
    if items == [] || items[0].key == key then 0 else 1 + IndexOf(items[1..], key)
  }

  predicate HasKey(items: seq<Item>, key: string) {
    IndexOf(items, key) < |items|
  }

  function Without(items: seq<Item>, key: string): seq<Item> {
    if items == [] then []
    else if items[0].key == key then Without(items[1..], key)
    else [items[0]] + Without(items[1..], key)
  }

  function WithoutPrefix(items: seq<Item>, prefix: string): seq<Item> {
    if items == [] then []
    else
      var rest, last := WithoutPrefix(items[..|items| - 1], prefix), items[|items| - 1];
      if prefix <= last.key then rest else rest + [last]
  }

  lemma {:induction false} WithoutIff(items: seq<Item>, key: string, x: Item)
    ensures x in Without(items, key) <==> x in items && x.key != key
  {
    if items != [] {
      WithoutIff(items[1..], key, x);
      assert x in items <==> x == items[0] || x in items[1..];
    }
  }

  lemma {:induction false} WithoutPrefixIff(items: seq<Item>, prefix: string, x: Item)
    ensures x in WithoutPrefix(items, prefix) <==> x in items && !(prefix <= x.key)
  {
    if items != [] {
      WithoutPrefixIff(items[..|items| - 1], prefix, x);
      assert x in items <==> x == items[|items| - 1] || x in items[..|items| - 1];
    }
  }

  predicate AbsentKey(items: seq<Item>, key: string) {
    forall i :: 0 <= i < |items| ==> items[i].key != key
  }

  /** An earlier item was used before every later one; so keys are distinct. */
  ghost predicate UseOrdered(items: seq<Item>, used: map<string, nat>) {
    && (forall i :: 0 <= i < |items| ==> items[i].key in used)
    && (forall i, j :: 0 <= i < j < |items| ==> used[items[i].key] < used[items[j].key])
  }

  ghost predicate UsedAfter(items: seq<Item>, used: map<string, nat>, t: nat) {
    forall i :: 0 <= i < |items| ==> items[i].key in used && t < used[items[i].key]
  }

  lemma OrderedTail(items: seq<Item>, used: map<string, nat>)
    requires UseOrdered(items, used) && items != []
    ensures UseOrdered(items[1..], used) && UsedAfter(items[1..], used, used[items[0].key])
  {
    var tail := items[1..];
    assert forall i :: 0 <= i < |tail| ==> tail[i] == items[i + 1];
  }

  lemma OrderedCons(item: Item, items: seq<Item>, used: map<string, nat>)
    requires UseOrdered(items, used) && item.key in used && UsedAfter(items, used, used[item.key])
    ensures UseOrdered([item] + items, used)
  {
    var all := [item] + items;
    assert forall i :: 0 < i < |all| ==> all[i] == items[i - 1];
  }

  lemma {:induction false} WithoutUsedAfter(items: seq<Item>, used: map<string, nat>, key: string, t: nat)
    requires UsedAfter(items, used, t)
    ensures UsedAfter(Without(items, key), used, t)
  {
    if items != [] {
      assert forall i :: 0 <= i < |items| - 1 ==> items[1..][i] == items[i + 1];
      WithoutUsedAfter(items[1..], used, key, t);
    }
  }

  /** Taking one key out keeps the order of the others. */
  lemma {:induction false} WithoutOrdered(items: seq<Item>, used: map<string, nat>, key: string)
    requires UseOrdered(items, used)
    ensures UseOrdered(Without(items, key), used) && AbsentKey(Without(items, key), key) &&
      |Without(items, key)| <= |items|
  {
    if items != [] {
      OrderedTail(items, used);
      WithoutOrdered(items[1..], used, key);
      if items[0].key != key {
        WithoutUsedAfter(items[1..], used, key, used[items[0].key]);
        OrderedCons(items[0], Without(items[1..], key), used);
      }
    }
  }

  lemma {:induction false} WithoutMissing(items: seq<Item>, key: string)
    requires AbsentKey(items, key)
    ensures Without(items, key) == items
  {
    if items != [] {
      assert forall i :: 0 <= i < |items| - 1 ==> items[1..][i] == items[i + 1];
      WithoutMissing(items[1..], key);
    }
  }

  lemma {:induction false} WithoutConcat(a: seq<Item>, b: seq<Item>, key: string)
    ensures Without(a + b, key) == Without(a, key) + Without(b, key)
  {
    if a == [] {
      assert a + b == b;
    } else {
      WithoutConcat(a[1..], b, key);
      assert (a + b)[1..] == a[1..] + b;
    }
  }

  function DropAt(items: seq<Item>, i: nat): seq<Item>
    requires i < |items|
  {
    items[..i] + items[i + 1..]
  }

  lemma WeightAt(items: seq<Item>, i: nat)
    requires i < |items|
    ensures TotalWeight(items) == TotalWeight(DropAt(items, i)) + items[i].weight
  {
    var a, b := items[..i], items[i + 1..];
    assert items == a + ([items[i]] + b);
    WeightOfSum(a, [items[i]] + b);
    WeightOfSum([items[i]], b);
    WeightOfSum(a, b);
  }

  lemma WithoutMiddle(a: seq<Item>, x: Item, b: seq<Item>)
    requires AbsentKey(a, x.key) && AbsentKey(b, x.key)
    ensures Without(a + [x] + b, x.key) == a + b
  {
    var first := a + [x];
    assert Without([x], x.key) == [] by { assert [x][1..] == []; }
    WithoutConcat(a, [x], x.key);
    WithoutMissing(a, x.key);
    assert Without(first, x.key) == a;
    WithoutConcat(first, b, x.key);
    WithoutMissing(b, x.key);
  }

  lemma OthersDiffer(items: seq<Item>, used: map<string, nat>, i: nat)
    requires UseOrdered(items, used) && i < |items|
    ensures AbsentKey(items[..i], items[i].key) && AbsentKey(items[i + 1..], items[i].key)
  {
    forall j | 0 <= j < |items| && j != i ensures items[j].key != items[i].key {
      assert used[items[j].key] != used[items[i].key];
    }
  }

  /** A key is at one place at most, so taking it out is dropping one index. */
  lemma WithoutAt(items: seq<Item>, used: map<string, nat>, i: nat)
    requires UseOrdered(items, used) && i < |items|
    ensures Without(items, items[i].key) == DropAt(items, i)
  {
    OthersDiffer(items, used, i);
    var a, x, b := items[..i], items[i], items[i + 1..];
    WithoutMiddle(a, x, b);
    assert items == a + [x] + b;
  }

  /** Whether the newest items from `k` on leave room for one more. */
  predicate Fits(items: seq<Item>, k: nat, weight: nat, maxBytes: nat, maxItems: nat)
    requires k <= |items|
  {
    TotalWeight(items[k..]) + weight <= maxBytes && |items| - k + 1 <= maxItems
  }

  /** `k` is the fewest of the oldest items whose eviction makes room. */
  predicate FewestEvicted(items: seq<Item>, k: nat, weight: nat, maxBytes: nat, maxItems: nat) {
    k <= |items| && Fits(items, k, weight, maxBytes, maxItems) &&
      (k == 0 || !Fits(items, k - 1, weight, maxBytes, maxItems))
  }

  lemma {:induction false} SuffixLighter(items: seq<Item>, i: nat, j: nat)
    requires i <= j <= |items|
    ensures TotalWeight(items[j..]) <= TotalWeight(items[i..])
    decreases j - i
  {
    if i < j {
      assert items[i..][1..] == items[i + 1..];
      SuffixLighter(items, i + 1, j);
    }
  }

  /** No smaller number of evictions would do. */
  lemma FewestIsLeast(items: seq<Item>, k: nat, j: nat, weight: nat, maxBytes: nat, maxItems: nat)
    requires FewestEvicted(items, k, weight, maxBytes, maxItems) && j <= |items| &&
      Fits(items, j, weight, maxBytes, maxItems)
    ensures k <= j
  {
    if j < k {
      SuffixLighter(items, j, k - 1);
    }
  }

  datatype Outcome<T> = Success(result: T) | EmptyKey | Canceled

  /** Spaces around keys and prefixes are ignored. */
  predicate Space(c: char) { c in {' ', '\t', '\n', '\r', '\U{0b}', '\U{0c}'} }

  function TrimLeft(s: string): string { if s != "" && Space(s[0]) then TrimLeft(s[1..]) else s }

  function TrimRight(s: string): string { if s != "" && Space(s[|s| - 1]) then TrimRight(s[..|s| - 1]) else s }

  function TrimSpace(s: string): string { TrimRight(TrimLeft(s)) }

  function TrimColons(s: string): string
    decreases |s|
  {
    if s != "" && s[0] == ':' then TrimColons(s[1..])
    else if s != "" && s[|s| - 1] == ':' then TrimColons(s[..|s| - 1])
    else s
  }

  function Normalize(prefix: string): string { TrimColons(TrimSpace(prefix)) }

  /** The physical key, or `EmptyKey`. The cache keeps its namespace normalised and
      every key normalises it again: what is left of `: a :` is `a`. */
  function CacheKey(prefix: string, key: string): Outcome<string> {
    var trimmed := TrimSpace(key);
    if trimmed == "" then EmptyKey
    else if Normalize(prefix) == "" then Success(trimmed)
    else Success(Normalize(prefix) + ":" + trimmed)
  }

  const SPACES := " \t\n\r\U{0b}\U{0c}"

  predicate AllIn(s: string, cut: string) {
    forall i :: 0 <= i < |s| ==> s[i] in cut
  }

  /** `r` is `s` without the characters of `cut` at its ends. */
  ghost predicate Stripped(s: string, r: string, cut: string) {
    && (exists a, b :: s == a + r + b && AllIn(a, cut) && AllIn(b, cut))
    && (r != "" ==> r[0] !in cut && r[|r| - 1] !in cut)
  }

  lemma StrippedBy(s: string, a: string, r: string, b: string, cut: string)
    requires s == a + r + b && AllIn(a, cut) && AllIn(b, cut) && (r != "" ==> r[0] !in cut && r[|r| - 1] !in cut)
    ensures Stripped(s, r, cut)
  {
  }

  /** What is cut off lies in `cut`, and what is left neither starts nor ends there. */
  lemma CutParts(s: string, a: string, r: string, b: string, cut: string)
    requires s == a + r + b && AllIn(a, cut) && AllIn(b, cut)
    ensures forall i :: 0 <= i < |s| && (i < |a| || |a| + |r| <= i) ==> s[i] in cut
    ensures r != "" ==> s[|a|] == r[0] && s[|a| + |r| - 1] == r[|r| - 1]
    ensures r == s[|a|..|a| + |r|]
  {
    assert forall i :: 0 <= i < |a| ==> s[i] == a[i];
    assert forall i :: |a| + |r| <= i < |s| ==> s[i] == b[i - |a| - |r|];
  }

  /** There is one way to strip a string. */
  lemma StrippedUnique(s: string, r: string, q: string, cut: string)
    requires Stripped(s, r, cut) && Stripped(s, q, cut)
    ensures r == q
  {
    var a, b :| s == a + r + b && AllIn(a, cut) && AllIn(b, cut);
    var c, d :| s == c + q + d && AllIn(c, cut) && AllIn(d, cut);
    CutParts(s, a, r, b, cut);
    CutParts(s, c, q, d, cut);
  }

  lemma {:induction false} TrimLeftMeans(s: string) returns (a: string)
    ensures s == a + TrimLeft(s) && AllIn(a, SPACES)
    ensures TrimLeft(s) != "" ==> TrimLeft(s)[0] !in SPACES
  {
    a := "";
    if s != "" && Space(s[0]) {
      a := TrimLeftMeans(s[1..]);
      a := [s[0]] + a;
    }
  }

  lemma {:induction false} TrimRightMeans(s: string) returns (b: string)
    ensures s == TrimRight(s) + b && AllIn(b, SPACES)
    ensures TrimRight(s) != "" ==> TrimRight(s)[|TrimRight(s)| - 1] !in SPACES
  {
    b := "";
    if s != "" && Space(s[|s| - 1]) {
      b := TrimRightMeans(s[..|s| - 1]);
      b := b + [s[|s| - 1]];
    }
  }

  lemma TrimSpaceMeans(s: string)
    ensures Stripped(s, TrimSpace(s), SPACES)
  {
    var a := TrimLeftMeans(s);
    var b := TrimRightMeans(TrimLeft(s));
    var r := TrimSpace(s);
    assert r != "" ==> r[0] == TrimLeft(s)[0];
    StrippedBy(s, a, r, b, SPACES);
  }

  lemma {:induction false} TrimColonsParts(s: string) returns (a: string, b: string)
    ensures s == a + TrimColons(s) + b && AllIn(a, ":") && AllIn(b, ":")
    decreases |s|
  {
    a, b := "", "";
    assert "" + s + "" == s;
    if s != "" && s[0] == ':' {
      a, b := TrimColonsParts(s[1..]);
      assert s == [s[0]] + (a + TrimColons(s[1..]) + b) == ([s[0]] + a) + TrimColons(s[1..]) + b;
      a := [s[0]] + a;
    } else if s != "" && s[|s| - 1] == ':' {
      var most, last := s[..|s| - 1], [s[|s| - 1]];
      a, b := TrimColonsParts(most);
      assert s == most + last && (a + TrimColons(most) + b) + last == a + TrimColons(most) + (b + last);
      b := b + last;
    }
  }

  lemma {:induction false} TrimColonsEnds(s: string)
    ensures TrimColons(s) != "" ==> TrimColons(s)[0] !in ":" && TrimColons(s)[|TrimColons(s)| - 1] !in ":"
    decreases |s|
  {
    if s != "" && s[0] == ':' {
      TrimColonsEnds(s[1..]);
    } else if s != "" && s[|s| - 1] == ':' {
      TrimColonsEnds(s[..|s| - 1]);
    }
  }

  lemma TrimColonsMeans(s: string)
    ensures Stripped(s, TrimColons(s), ":")
  {
    var a, b := TrimColonsParts(s);
    TrimColonsEnds(s);
    StrippedBy(s, a, TrimColons(s), b, ":");
  }

  /** The physical key: the namespace without its outer spaces and colons, a colon,
      and the key without its outer spaces; a key of spaces alone is refused. */
  lemma CacheKeyMeans(prefix: string, key: string, inner: string, p: string, k: string)
    requires Stripped(prefix, inner, SPACES) && Stripped(inner, p, ":") && Stripped(key, k, SPACES)
    ensures CacheKey(prefix, key) == if k == "" then EmptyKey else Success(if p == "" then k else p + ":" + k)
  {
    TrimSpaceMeans(key);
    StrippedUnique(key, k, TrimSpace(key), SPACES);
    TrimSpaceMeans(prefix);
    StrippedUnique(prefix, inner, TrimSpace(prefix), SPACES);
    TrimColonsMeans(inner);
    StrippedUnique(inner, p, TrimColons(inner), ":");
  }

  /** Within one namespace the physical keys under a prefix are those of the keys under it. */
  lemma PrefixOfKeys(prefix: string, p: string, k: string)
    requires CacheKey(prefix, p).Success? && CacheKey(prefix, k).Success?
    ensures CacheKey(prefix, p).result <= CacheKey(prefix, k).result <==> TrimSpace(p) <= TrimSpace(k)
  {
    var head := if Normalize(prefix) == "" then "" else Normalize(prefix) + ":";
    var x, y := TrimSpace(p), TrimSpace(k);
    assert CacheKey(prefix, p).result == head + x && CacheKey(prefix, k).result == head + y;
    assert (head + x)[|head|..] == x && (head + y)[|head|..] == y;
    if head + x <= head + y {
      assert forall i :: 0 <= i < |x| ==> x[i] == (head + x)[|head| + i] && y[i] == (head + y)[|head| + i];
    }
  }

  predicate Refined(x: Item, latest: map<string, Setting>) {
    x.key in latest && latest[x.key] == Setting(x.value, x.expiresAt) && x.weight == |x.key| + |x.value|
  }

  /** Every cached item is what was last set for its key. */
  ghost predicate Refines(items: seq<Item>, latest: map<string, Setting>) {
    forall i :: 0 <= i < |items| ==> Refined(items[i], latest)
  }

  function NewItem(key: string, value: string, expiresAt: Time): Item {
    Item(key, value, expiresAt, |key| + |value|)
  }

  /** How setting an item changes the list. */
  ghost predicate Stores(stored: bool, evicted: nat, item: Item, before: seq<Item>, after: seq<Item>, maxBytes: nat,
                         maxItems: nat)
  {
    var rest := Without(before, item.key);
    if stored then FewestEvicted(rest, evicted, item.weight, maxBytes, maxItems) && after == rest[evicted..] + [item]
    else after == rest
  }

  lemma SuffixFacts(items: seq<Item>, n: nat, used: map<string, nat>, latest: map<string, Setting>)
    requires n <= |items| && UseOrdered(items, used) && Refines(items, latest)
    ensures UseOrdered(items[n..], used) && Refines(items[n..], latest)
  {
    assert forall i :: 0 <= i < |items| - n ==> items[n..][i] == items[n + i];
  }

  lemma {:induction false} WithoutRefines(items: seq<Item>, latest: map<string, Setting>, key: string)
    requires Refines(items, latest)
    ensures Refines(Without(items, key), latest)
  {
    if items != [] {
      assert forall i :: 0 <= i < |items| - 1 ==> items[1..][i] == items[i + 1];
      WithoutRefines(items[1..], latest, key);
    }
  }

  lemma {:induction false} WithoutPrefixRefines(items: seq<Item>, latest: map<string, Setting>, prefix: string)
    requires Refines(items, latest)
    ensures Refines(WithoutPrefix(items, prefix), map k | k in latest && !(prefix <= k) :: latest[k])
  {
    if items != [] {
      var most := items[..|items| - 1];
      assert forall i :: 0 <= i < |most| ==> most[i] == items[i];
      WithoutPrefixRefines(most, latest, prefix);
      assert Refined(items[|items| - 1], latest);
    }
  }

  lemma RefinesOthers(items: seq<Item>, latest: map<string, Setting>, key: string, setting: Setting)
    requires Refines(items, latest) && AbsentKey(items, key)
    ensures Refines(items, latest[key := setting]) && Refines(items, latest - {key})
  {
    forall i | 0 <= i < |items| ensures Refined(items[i], latest[key := setting]) && Refined(items[i], latest - {key}) {
      assert Refined(items[i], latest);
    }
  }

  /** Every use so far has a smaller stamp than the next. */
  ghost predicate Uses(items: seq<Item>, used: map<string, nat>, uses: nat) {
    UseOrdered(items, used) && forall k :: k in used ==> used[k] < uses
  }

  lemma Promoted(items: seq<Item>, used: map<string, nat>, uses: nat, latest: map<string, Setting>, i: nat)
    requires i < |items| && Uses(items, used, uses) && Refines(items, latest)
    ensures var next := DropAt(items, i) + [items[i]];
      && Uses(next, used[items[i].key := uses], uses + 1) && Refines(next, latest) &&
        TotalWeight(next) == TotalWeight(items)
      && DropAt(items, i) == Without(items, items[i].key)
  {
    var item := items[i];
    WithoutAt(items, used, i);
    WithoutOrdered(items, used, item.key);
    WithoutRefines(items, latest, item.key);
    WeightAt(items, i);
    WeightOfSum(DropAt(items, i), [item]);
    Appended(DropAt(items, i), used, item, uses);
  }

  /** The item bound takes at most one more eviction, and only a needed one. */
  lemma AddFits(rest: seq<Item>, n: nat, item: Item, maxBytes: nat, maxItems: nat, more: nat)
    requires n <= |rest| <= maxItems && 0 < maxItems && TotalWeight(rest[n..]) + item.weight <= maxBytes
    requires n > 0 ==> TotalWeight(rest[n - 1..]) + item.weight > maxBytes
    requires more == if |rest| - n == maxItems then 1 else 0
    ensures FewestEvicted(rest, n + more, item.weight, maxBytes, maxItems)
    ensures (rest[n..] + [item])[more..] == rest[n + more..] + [item]
  {
    if more == 1 {
      assert rest[n..][1..] == rest[n + 1..];
    }
  }

  /** The list after the first `i` keys of a snapshot were visited. */
  function Swept(snapshot: seq<Item>, i: nat, p: string): seq<Item>
    requires i <= |snapshot|
  {
    WithoutPrefix(snapshot[..i], p) + snapshot[i..]
  }

  /** At any point of the visit nothing was added, and all outside the prefix is still there. */
  lemma SweptKeeps(snapshot: seq<Item>, i: nat, p: string)
    requires i <= |snapshot|
    ensures forall x :: x in Swept(snapshot, i, p) ==> x in snapshot
    ensures forall x :: x in snapshot && !(p <= x.key) ==> x in Swept(snapshot, i, p)
  {
    assert snapshot == snapshot[..i] + snapshot[i..];
    forall x ensures x in WithoutPrefix(snapshot[..i], p) <==> x in snapshot[..i] && !(p <= x.key) {
      WithoutPrefixIff(snapshot[..i], p, x);
    }
  }

  lemma SweptOneMore(items: seq<Item>, used: map<string, nat>, snapshot: seq<Item>, i: nat, p: string)
    requires i < |snapshot| && items == Swept(snapshot, i, p) && UseOrdered(items, used)
    ensures Swept(snapshot, i + 1, p) == if p <= snapshot[i].key then Without(items, snapshot[i].key) else items
  {
    var x, kept, rest := snapshot[i], WithoutPrefix(snapshot[..i], p), snapshot[i + 1..];
    assert snapshot[..i + 1][..i] == snapshot[..i];
    assert snapshot[i..] == [x] + rest;
    assert items == kept + [x] + rest;
    OthersDiffer(items, used, |kept|);
    assert items[|kept|] == x && items[..|kept|] == kept && items[|kept| + 1..] == rest;
    WithoutMiddle(kept, x, rest);
  }

  class Memory {
    const maxBytes: nat
    const maxItems: nat
    const prefix: string
    var items: seq<Item>       // oldest first
    var currentBytes: int
    ghost var latest: map<string, Setting>
    ghost var used: map<string, nat>
    ghost var uses: nat

    ghost predicate Valid()
      reads this
    {
      && maxBytes > 0 && maxItems > 0
      && currentBytes == TotalWeight(items) <= maxBytes && |items| <= maxItems
      && Refines(items, latest) && Uses(items, used, uses)
    }

    constructor (items: int, bytes: int, namespace: string)
      ensures Valid() && this.items == [] && latest == map[]
      ensures maxItems == (if items > 0 then items else 10_000) &&
        maxBytes == (if bytes > 0 then bytes else 64 * 1024 * 1024)
      ensures prefix == Normalize(namespace)
    {
      maxItems, maxBytes := if items > 0 then items else DEFAULT_MAX_ITEMS,
        if bytes > 0 then bytes else DEFAULT_MAX_BYTES;
      prefix := Normalize(namespace);
      this.items, currentBytes := [], 0;
      latest, used, uses := map[], map[], 0;
    }

    /** `Remove` with its eviction callback. */
    method Remove(key: string)
      requires Valid()
      modifies `items, `currentBytes
      ensures Valid() && items == Without(old(items), key) && AbsentKey(items, key)
    {
      WithoutRefines(items, latest, key);
      WithoutOrdered(items, used, key);
      var i := IndexOf(items, key);
      if i < |items| {
        WithoutAt(items, used, i);
        WeightAt(items, i);
        currentBytes := currentBytes - items[i].weight;
        items := DropAt(items, i);
      } else {
        WithoutMissing(items, key);
      }
    }

    /** `RemoveOldest` with its eviction callback. */
    method RemoveOldest()
      requires items != [] && currentBytes == TotalWeight(items)
      modifies `items, `currentBytes
      ensures items == old(items)[1..] && currentBytes == TotalWeight(items)
    {
      currentBytes := currentBytes - items[0].weight;
      items := items[1..];
    }

    /** A hit returns the latest value set for the key, still unexpired, and makes
        it the most recently used; an expired item is dropped. */
    method Get(now: Time, key: string) returns (r: Outcome<Option<string>>)
      requires Valid()
      modifies this
      ensures Valid() && latest == old(latest)
      ensures CacheKey(prefix, key).EmptyKey? <==> r.EmptyKey?
      ensures r.EmptyKey? || r.Success?
      ensures r.Success? && r.result.Some? ==>
        var k := CacheKey(prefix, key).result;
        && k in latest && r.result.value == latest[k].value
        && (latest[k].expiresAt == 0 || now < latest[k].expiresAt)
        && HasKey(old(items), k) && items == Without(old(items), k) + [old(items)[IndexOf(old(items), k)]]
      ensures r.Success? && r.result.None? ==>
        var k := CacheKey(prefix, key).result;
        && items == Without(old(items), k)
        && (HasKey(old(items), k) ==> k in latest && 0 < latest[k].expiresAt <= now)
      ensures r.EmptyKey? ==> items == old(items)
    {
      var physical := CacheKey(prefix, key);
      if physical.EmptyKey? { return EmptyKey; }
      var k := physical.result;
      var i := IndexOf(items, k);
      if i == |items| {
        WithoutMissing(items, k);
        return Success(None);
      }
      var item := items[i];
      assert item in items;
      if Expired(item.expiresAt, now) {
        Remove(k);
        return Success(None);
      }
      Promote(i);
      return Success(Some(item.value));
    }

    /** Moves an item to the recently used end. */
    method Promote(i: nat)
      requires Valid() && i < |items| && IndexOf(items, items[i].key) == i
      modifies `items, `used, `uses
      ensures Valid() && items == Without(old(items), old(items)[i].key) + [old(items)[i]]
    {
      var item := items[i];
      Promoted(items, used, uses, latest, i);
      items, used, uses := DropAt(items, i) + [item], used[item.key := uses], uses + 1;
    }

    /** Evicts the oldest items until `weight` more bytes fit. The list never runs
        out first, so the loop needs no break. */
    method MakeRoom(weight: nat) returns (ghost n: nat)
      requires Valid() && weight <= maxBytes
      modifies `items, `currentBytes
      ensures n <= |old(items)| && items == old(items)[n..] && currentBytes == TotalWeight(items) &&
        currentBytes + weight <= maxBytes
      ensures n > 0 ==> TotalWeight(old(items)[n - 1..]) + weight > maxBytes
    {
      n := 0;
      while currentBytes + weight > maxBytes
        invariant n <= |old(items)| && items == old(items)[n..] && currentBytes == TotalWeight(items)
        invariant n > 0 ==> TotalWeight(old(items)[n - 1..]) + weight > maxBytes
        decreases |items|
      {
        assert items != [];
        RemoveOldest();
        n := n + 1;
      }
    }

    /** The newest value is cached unless it alone is too heavy; then the key is
        not cached at all. As few items as possible are evicted, oldest first. */
    method Set(now: Time, key: string, value: string, ttl: int) returns (r: Outcome<bool>, ghost evicted: nat)
      requires Valid()
      modifies this
      ensures Valid() && (r.EmptyKey? <==> CacheKey(prefix, key).EmptyKey?) && (r.EmptyKey? || r.Success?)
      ensures r.EmptyKey? ==> items == old(items) && latest == old(latest)
      ensures r.Success? ==>
        var item := NewItem(CacheKey(prefix, key).result, value, if ttl > 0 then now + ttl else 0);
        && latest == old(latest)[item.key := Setting(item.value, item.expiresAt)]
        && (r.result <==> item.weight <= maxBytes)
        && Stores(r.result, evicted, item, old(items), items, maxBytes, maxItems)
    {
      var physical := CacheKey(prefix, key);
      if physical.EmptyKey? { return EmptyKey, 0; }
      var stored;
      stored, evicted := Store(NewItem(physical.result, value, if ttl > 0 then now + ttl else 0));
      r := Success(stored);
    }

    method Store(item: Item) returns (stored: bool, ghost evicted: nat)
      requires Valid() && item.weight == |item.key| + |item.value|
      modifies this
      ensures Valid() && latest == old(latest)[item.key := Setting(item.value, item.expiresAt)]
      ensures (stored <==> item.weight <= maxBytes) &&
        Stores(stored, evicted, item, old(items), items, maxBytes, maxItems)
    {
      Remove(item.key);
      ghost var rest := items;
      RefinesOthers(items, latest, item.key, Setting(item.value, item.expiresAt));
      latest := latest[item.key := Setting(item.value, item.expiresAt)];
      if item.weight > maxBytes { return false, 0; }
      evicted := MakeRoom(item.weight);
      SuffixFacts(rest, evicted, used, latest);
      var more := Add(item);
      AddFits(rest, evicted, item, maxBytes, maxItems, more);
      return true, evicted + more;
    }

    /** `Add` of a key that is not in the list: one item more, and the oldest is
        evicted if that is one too many. */
    method Add(item: Item) returns (ghost more: nat)
      requires Valid() && AbsentKey(items, item.key) && currentBytes + item.weight <= maxBytes && Refined(item, latest)
      modifies `items, `currentBytes, `used, `uses
      ensures Valid() && more == (if |old(items)| == maxItems then 1 else 0) && items == (old(items) + [item])[more..]
    {
      Appended(items, used, item, uses);
      WeightOfSum(items, [item]);
      more := if |items| == maxItems then 1 else 0;
      SuffixFacts(items + [item], more, used[item.key := uses], latest);
      currentBytes := currentBytes + item.weight;
      items, used, uses := items + [item], used[item.key := uses], uses + 1;
      if |items| > maxItems {
        RemoveOldest();
      }
    }

    method Delete(key: string) returns (r: Outcome<bool>)
      requires Valid()
      modifies this
      ensures Valid() && (r.EmptyKey? <==> CacheKey(prefix, key).EmptyKey?) && (r.EmptyKey? || r.Success?)
      ensures r.EmptyKey? ==> items == old(items) && latest == old(latest)
      ensures r.Success? ==>
        items == Without(old(items), CacheKey(prefix, key).result) &&
          latest == old(latest) - {CacheKey(prefix, key).result}
    {
      var physical := CacheKey(prefix, key);
      if physical.EmptyKey? { return EmptyKey; }
      var k := physical.result;
      Remove(k);
      RefinesOthers(items, latest, k, Setting("", 0));
      latest := latest - {k};
      return Success(true);
    }

    /** Removes exactly the items under the prefix; when the context ends, some of
        them may stay. */
    method DeletePrefix(key: string) returns (r: Outcome<bool>)
      requires Valid()
      modifies this
      ensures Valid() && (r.EmptyKey? <==> Normalize(key) == "")
      ensures r.EmptyKey? ==> items == old(items) && latest == old(latest)
      ensures r.Success? ==>
        && CacheKey(prefix, key).Success? && items == WithoutPrefix(old(items), CacheKey(prefix, key).result)
        && latest == map k | k in old(latest) && !(CacheKey(prefix, key).result <= k) :: old(latest)[k]
      ensures r.Canceled? ==>
        && latest == old(latest) && CacheKey(prefix, key).Success?
        && (forall x :: x in items ==> x in old(items))
        && (forall x :: x in old(items) && !(CacheKey(prefix, key).result <= x.key) ==> x in items)
    {
      if Normalize(key) == "" { return EmptyKey; }
      var canceled: bool := *;
      if canceled { return Canceled; }
      var p := CacheKey(prefix, key).result;
      ghost var before := items;
      var done := RemovePrefix(p);
      if !done { return Canceled; }
      WithoutPrefixRefines(before, latest, p);
      latest := map k | k in latest && !(p <= k) :: latest[k];
      return Success(true);
    }

    /** Visits a snapshot of the keys and removes the ones under the prefix. */
    method RemovePrefix(p: string) returns (done: bool)
      requires Valid()
      modifies `items, `currentBytes
      ensures Valid() && (done ==> items == WithoutPrefix(old(items), p))
      ensures forall x :: x in items ==> x in old(items)
      ensures forall x :: x in old(items) && !(p <= x.key) ==> x in items
    {
      var snapshot := items;
      for i := 0 to |snapshot|
        invariant Valid() && items == Swept(snapshot, i, p)
      {
        var canceled: bool := *;
        if canceled {
          SweptKeeps(snapshot, i, p);
          return false;
        }
        SweptOneMore(items, used, snapshot, i, p);
        if p <= snapshot[i].key {
          Remove(snapshot[i].key);
        }
      }
      SweptKeeps(snapshot, |snapshot|, p);
      assert snapshot[..|snapshot|] == snapshot && snapshot[|snapshot|..] == [];
      assert WithoutPrefix(snapshot, p) + [] == WithoutPrefix(snapshot, p);
      return true;
    }

    method Close()
      requires Valid()
      modifies this
      ensures Valid() && items == [] && currentBytes == 0 && latest == map[]
    {
      currentBytes := currentBytes - TotalWeight(items);
      items, latest := [], map[];
    }
  }

  /** A new last item is the most recently used. */
  lemma Appended(items: seq<Item>, used: map<string, nat>, item: Item, uses: nat)
    requires UseOrdered(items, used) && (forall k :: k in used ==> used[k] < uses) && AbsentKey(items, item.key)
    ensures UseOrdered(items + [item], used[item.key := uses])
  {
    var all := items + [item];
    assert forall i :: 0 <= i < |items| ==> all[i] == items[i];
  }
}
