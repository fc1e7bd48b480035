/** Deleting every key under a prefix from a Redis-like store: the escaped glob
    pattern, the cursor loop over scanned pages, and the bounded batches. */
module PrefixDelete {
  import opened MemoryCache

  const BATCH := 256

  // ---------------------------------------------------------------------------
  // Redis glob matching

  function SkipStars(p: string): (r: string)
    ensures |r| <= |p| && (p != "" && p[0] == '*' ==> |r| < |p|)
  {
    if p != "" && p[0] == '*' then SkipStars(p[1..]) else p
  }

  /** The rest of a character class and whether it admits `c`. */
  datatype Class = Class(matched: bool, rest: string)

  function ScanClass(p: string, c: char, matched: bool): (r: Class)
    ensures |r.rest| <= |p|
    decreases |p|
  {
    if p == "" then Class(matched, "")
    else if p[0] == '\\' && |p| >= 2 then ScanClass(p[2..], c, matched || p[1] == c)
    else if p[0] == ']' then Class(matched, p[1..])
    else if |p| >= 3 && p[1] == '-' then ScanClass(p[3..], c, matched || InRange(p[0], p[2], c))
    else ScanClass(p[1..], c, matched || p[0] == c)
  }

  predicate InRange(a: char, b: char, c: char) {
    if a <= b then a <= c <= b else b <= c <= a
  }

  /** After a byte was consumed, trailing stars match the empty remainder. */
  predicate GlobRest(p: string, s: string)
    decreases |s|, |p|, 1
  {
    if s == "" then SkipStars(p) == "" else Glob(p, s)
  }

  predicate Glob(p: string, s: string)
    decreases |s|, |p|, 0
  {
    if p == "" || s == "" then p == "" && s == ""
    else if p[0] == '*' then
      SkipStars(p) == "" || GlobSomewhere(SkipStars(p), s)
    else if p[0] == '?' then GlobRest(p[1..], s[1..])
    else if p[0] == '[' then
      var negated := |p| > 1 && p[1] == '^';
      var choice := ScanClass(if negated then p[2..] else p[1..], s[0], false);
      choice.matched != negated && GlobRest(choice.rest, s[1..])
    else if p[0] == '\\' && |p| >= 2 then p[1] == s[0] && GlobRest(p[2..], s[1..])
    else p[0] == s[0] && GlobRest(p[1..], s[1..])
  }

  /** The pattern after a star, tried at every nonempty suffix. */
  predicate GlobSomewhere(p: string, s: string)
    decreases |s|, |p|, 1
  {
    s != "" && (Glob(p, s) || GlobSomewhere(p, s[1..]))
  }

  // ---------------------------------------------------------------------------
  // The escaped prefix

  predicate Special(c: char) {
    c == '\\' || c == '*' || c == '?' || c == '[' || c == ']'
  }

  function EscapeGlob(p: string): string {
    if p == "" then "" else (if Special(p[0]) then ['\\', p[0]] else [p[0]]) + EscapeGlob(p[1..])
  }

  /** No escaped prefix starts with a bare star. */
  lemma EscapedNoStar(p: string)
    ensures SkipStars(EscapeGlob(p) + "*") == "" <==> p == ""
  {
    var pattern := EscapeGlob(p) + "*";
    if p == "" {
      assert pattern == "*" && pattern[1..] == "";
    } else {
      assert pattern[0] != '*';
    }
  }

  /** The pattern of a prefix matches exactly the strings that begin with the
      prefix; only an empty pattern prefix misses the empty string. */
  lemma {:induction false} EscapedMatchesPrefix(p: string, s: string)
    ensures Glob(EscapeGlob(p) + "*", s) <==> p <= s && (p == "" ==> s != "")
    decreases |p|
  {
    var pattern := EscapeGlob(p) + "*";
    if p == "" {
      assert pattern == "*" && pattern[1..] == "";
      assert SkipStars(pattern) == "";
    } else if s != "" {
      var rest := EscapeGlob(p[1..]) + "*";
      var skip := if Special(p[0]) then 2 else 1;
      assert pattern[skip..] == rest;
      assert Glob(pattern, s) <==> p[0] == s[0] && GlobRest(rest, s[1..]);
      EscapedNoStar(p[1..]);
      EscapedMatchesPrefix(p[1..], s[1..]);
      assert p <= s <==> p[0] == s[0] && p[1..] <= s[1..];
    }
  }

  // ---------------------------------------------------------------------------
  // The scan

  datatype Status = Done | EmptyPrefix | Stopped

  function Flatten(batches: seq<seq<string>>): seq<string> {
    if batches == [] then [] else Flatten(batches[..|batches| - 1]) + batches[|batches| - 1]
  }

  function Matches(keys: seq<string>, prefix: string): seq<string> {
    if keys == [] then []
    else
      var rest, last := Matches(keys[..|keys| - 1], prefix), keys[|keys| - 1];
      if prefix <= last then rest + [last] else rest
  }

  lemma {:induction false} MatchesMembers(keys: seq<string>, prefix: string)
    ensures forall k :: k in Matches(keys, prefix) <==> k in keys && prefix <= k
  {
    if keys != [] {
      MatchesMembers(keys[..|keys| - 1], prefix);
      assert keys == keys[..|keys| - 1] + [keys[|keys| - 1]];
    }
  }

  lemma {:induction false} MatchesConcat(a: seq<string>, b: seq<string>, prefix: string)
    ensures Matches(a + b, prefix) == Matches(a, prefix) + Matches(b, prefix)
  {
    if b == [] {
      assert a + b == a;
    } else {
      var most := b[..|b| - 1];
      assert (a + b)[..|a + b| - 1] == a + most;
      MatchesConcat(a, most, prefix);
    }
  }

  ghost predicate Bounded(batches: seq<seq<string>>) {
    forall i :: 0 <= i < |batches| ==> 0 < |batches[i]| <= 256
  }

  /** The store's keys, and the batches that were deleted from it. */
  class KeyStore {
    var keys: set<string>
    ghost var batches: seq<seq<string>>

    ghost predicate Valid()
      reads this
    {
      Bounded(batches)
    }

    /** One deletion command; it may fail without effect. */
    method Remove(batch: seq<string>) returns (ok: bool)
      requires Valid() && 0 < |batch| <= BATCH
      modifies this
      ensures Valid()
      ensures ok ==> keys == old(keys) - (set k | k in batch) && batches == old(batches) + [batch]
      ensures !ok ==> keys == old(keys) && batches == old(batches)
    {
      ok := *;
      if ok {
        keys := keys - (set k | k in batch);
        batches := batches + [batch];
      }
    }

    /** Deletes the keys in order, in batches that partition them. */
    method DeleteKeyBatches(all: seq<string>) returns (ok: bool, ghost done: seq<string>)
      requires Valid()
      modifies this
      ensures Valid() && Flatten(batches) == old(Flatten(batches)) + done && done <= all && (ok ==> done == all)
      ensures forall k :: k in keys <==> k in old(keys) && k !in done
    {
      var rest := all;
      done := [];
      ghost var before := Flatten(batches);
      assert before + [] == before;
      while rest != []
        invariant Valid() && done + rest == all && Flatten(batches) == before + done
        invariant forall k :: k in keys <==> k in old(keys) && k !in done
      {
        var canceled: bool := *;
        if canceled { break; }
        var size := if |rest| < BATCH then |rest| else BATCH;
        var batch := rest[..size];
        var removed := Remove(batch);
        if !removed { break; }
        assert batches[..|batches| - 1] + [batch] == batches;
        done, rest := done + batch, rest[size..];
      }
      ok := rest == [];
    }

    /** One scanned page: only its keys with the literal prefix are deleted. */
    method DeletePrefixScanPage(page: seq<string>, prefix: string) returns (ok: bool, ghost done: seq<string>)
      requires Valid()
      modifies this
      ensures Valid() && Flatten(batches) == old(Flatten(batches)) + done
      ensures done <= Matches(page, prefix) && (ok ==> done == Matches(page, prefix))
      ensures forall k :: k in keys <==> k in old(keys) && k !in done
    {
      var failed: bool := *;
      if failed { return false, []; }
      var matches: seq<string> := [];
      for i := 0 to |page|
        invariant matches == Matches(page[..i], prefix)
        invariant keys == old(keys) && batches == old(batches)
      {
        assert page[..i + 1][..i] == page[..i];
        if prefix <= page[i] {
          matches := matches + [page[i]];
        }
      }
      assert page[..|page|] == page;
      ok, done := DeleteKeyBatches(matches);
    }

    /** Follows the cursor from 0 until it is 0 again. `pages` is what the scans
        return, in order. */
    method DeletePrefixByScan(prefix: string, pages: seq<seq<string>>)
      returns (status: Status, ghost deleted: seq<string>)
      requires Valid() && pages != []
      modifies this
      ensures Valid() && (status.EmptyPrefix? <==> TrimColons(TrimSpace(prefix)) == "")
      ensures Flatten(batches) == old(Flatten(batches)) + deleted && deleted <= Matches(Flatten(pages), prefix)
      ensures status.Done? ==> deleted == Matches(Flatten(pages), prefix)
      ensures status.EmptyPrefix? ==> deleted == []
      ensures forall k :: k in keys <==> k in old(keys) && k !in deleted
    {
      deleted := [];
      ghost var before := Flatten(batches);
      assert before + [] == before;
      if TrimColons(TrimSpace(prefix)) == "" { return EmptyPrefix, []; }
      var cursor := 0;
      while true
        invariant cursor < |pages| && Valid() && Flatten(batches) == before + deleted
        invariant deleted == Matches(Flatten(pages[..cursor]), prefix)
        invariant forall k :: k in keys <==> k in old(keys) && k !in deleted
        decreases |pages| - cursor
      {
        var ok; ghost var more;
        ok, more := DeletePrefixScanPage(pages[cursor], prefix);
        assert before + deleted + more == before + (deleted + more);
        PageDone(pages, cursor, prefix, more, ok);
        deleted := deleted + more;
        if !ok { return Stopped, deleted; }
        var next := if cursor + 1 < |pages| then cursor + 1 else 0;
        if next == 0 {
          assert pages[..cursor + 1] == pages;
          return Done, deleted;
        }
        cursor := next;
      }
    }
  }

  lemma PageDone(pages: seq<seq<string>>, i: nat, prefix: string, more: seq<string>, ok: bool)
    requires i < |pages| && more <= Matches(pages[i], prefix) && (ok ==> more == Matches(pages[i], prefix))
    ensures Matches(Flatten(pages[..i]), prefix) + more <= Matches(Flatten(pages), prefix)
    ensures ok ==> Matches(Flatten(pages[..i]), prefix) + more == Matches(Flatten(pages[..i + 1]), prefix)
  {
    assert pages[..i + 1][..i] == pages[..i];
    MatchesConcat(Flatten(pages[..i]), pages[i], prefix);
    PagesGrow(pages, i + 1, prefix);
  }

  lemma {:induction false} PagesGrow(pages: seq<seq<string>>, i: nat, prefix: string)
    requires i <= |pages|
    ensures Matches(Flatten(pages[..i]), prefix) <= Matches(Flatten(pages), prefix)
    decreases |pages| - i
  {
    if i == |pages| {
      assert pages[..i] == pages;
    } else {
      assert pages[..i + 1][..i] == pages[..i];
      MatchesConcat(Flatten(pages[..i]), pages[i], prefix);
      PagesGrow(pages, i + 1, prefix);
    }
  }

  /** When the scans return every key that the pattern matches, a finished run
      leaves exactly the keys without the prefix. */
  lemma PrefixEmptied(prefix: string, pages: seq<seq<string>>, before: set<string>, after: set<string>)
    requires TrimColons(TrimSpace(prefix)) != ""
    requires forall k :: k in before && Glob(EscapeGlob(prefix) + "*", k) ==> k in Flatten(pages)
    requires forall k :: k in after <==> k in before && k !in Matches(Flatten(pages), prefix)
    ensures after == set k | k in before && !(prefix <= k)
  {
    MatchesMembers(Flatten(pages), prefix);
    forall k | k in before ensures k in after <==> !(prefix <= k) {
      EscapedMatchesPrefix(prefix, k);
    }
  }
}
