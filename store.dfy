/**
 * The event collection the receiver writes to and the events endpoint
 * reads from: an append-only sequence of records with an insert that the
 * database may refuse, and the query `find(filter).sort("timestamp", -1)
 * .limit(n)` stated as filter, newest-first sort and prefix.
 */
module Store {
  import opened PyJson
  import opened Normalizer

  /** Binary (code point) order on strings, the order the database sorts `timestamp` by. */
  predicate StrLe(a: string, b: string)
    decreases |a|
  {
    if a == [] then true
    else if b == [] then false
    else if a[0] != b[0] then a[0] < b[0]
    else StrLe(a[1..], b[1..])
  }

  lemma {:induction false} StrLeTotal(a: string, b: string)
    ensures StrLe(a, b) || StrLe(b, a)
    decreases |a|
  {
    if a != [] && b != [] && a[0] == b[0] {
      StrLeTotal(a[1..], b[1..]);
    }
  }

  lemma {:induction false} StrLeTransitive(a: string, b: string, c: string)
    requires StrLe(a, b) && StrLe(b, c)
    ensures StrLe(a, c)
    decreases |a|
  {
    if a != [] && b != [] && c != [] && a[0] == b[0] && b[0] == c[0] {
      StrLeTransitive(a[1..], b[1..], c[1..]);
    }
  }

  lemma {:induction false} StrLeAntisymmetric(a: string, b: string)
    requires StrLe(a, b) && StrLe(b, a)
    ensures a == b
    decreases |a|
  {
    if a != [] {
      StrLeAntisymmetric(a[1..], b[1..]);
      assert a == [a[0]] + a[1..] && b == [b[0]] + b[1..];
    }
  }

  /** Newest first: no record has a greater `timestamp` than one before it. */
  predicate SortedDesc(s: seq<Record>) {
    forall i, j :: 0 <= i < j < |s| ==> StrLe(s[j].timestamp, s[i].timestamp)
  }

  /** Places `r` in a newest-first sequence, ahead of the records with an equal or older timestamp. */
  function InsertDesc(r: Record, s: seq<Record>): seq<Record>
    decreases |s|
  {
    if s == [] then [r]
    else if StrLe(s[0].timestamp, r.timestamp) then [r] + s
    else [s[0]] + InsertDesc(r, s[1..])
  }

  /** Sorts newest first; records with equal timestamps keep their store order. */
  function SortDesc(s: seq<Record>): seq<Record>
    decreases |s|
  {
    if s == [] then [] else InsertDesc(s[0], SortDesc(s[1..]))
  }

  /** Every record of `s` is no newer than `ts`. */
  predicate NoNewerThan(s: seq<Record>, ts: string) {
    forall i :: 0 <= i < |s| ==> StrLe(s[i].timestamp, ts)
  }

  lemma SortedCons(a: Record, t: seq<Record>)
    requires SortedDesc(t) && NoNewerThan(t, a.timestamp)
    ensures SortedDesc([a] + t)
  {
    var u := [a] + t;
    forall i, j | 0 <= i < j < |u| ensures StrLe(u[j].timestamp, u[i].timestamp) {
      if i == 0 {
        assert u[j] == t[j - 1];
      } else {
        assert u[i] == t[i - 1] && u[j] == t[j - 1];
      }
    }
  }

  lemma {:induction false} InsertDescPermutes(r: Record, s: seq<Record>)
    ensures multiset(InsertDesc(r, s)) == multiset(s) + multiset{r}
    decreases |s|
  {
    if s != [] && !StrLe(s[0].timestamp, r.timestamp) {
      InsertDescPermutes(r, s[1..]);
      assert s == [s[0]] + s[1..];
    }
  }

  lemma {:induction false} InsertDescNoNewer(r: Record, s: seq<Record>, ts: string)
    requires NoNewerThan(s, ts) && StrLe(r.timestamp, ts)
    ensures NoNewerThan(InsertDesc(r, s), ts)
    decreases |s|
  {
    if s != [] && !StrLe(s[0].timestamp, r.timestamp) {
      InsertDescNoNewer(r, s[1..], ts);
      var t := InsertDesc(r, s[1..]);
      assert InsertDesc(r, s) == [s[0]] + t;
    } else if s != [] {
      assert InsertDesc(r, s) == [r] + s;
    }
  }

  lemma {:induction false} InsertDescSorted(r: Record, s: seq<Record>)
    requires SortedDesc(s)
    ensures SortedDesc(InsertDesc(r, s))
    decreases |s|
  {
    if s == [] {
    } else if StrLe(s[0].timestamp, r.timestamp) {
      forall i | 0 <= i < |s| ensures StrLe(s[i].timestamp, r.timestamp) {
        if i > 0 {
          StrLeTransitive(s[i].timestamp, s[0].timestamp, r.timestamp);
        }
      }
      SortedCons(r, s);
    } else {
      var rest := s[1..];
      assert SortedDesc(rest) by {
        forall i, j | 0 <= i < j < |rest| ensures StrLe(rest[j].timestamp, rest[i].timestamp) {
          assert rest[i] == s[i + 1] && rest[j] == s[j + 1];
        }
      }
      InsertDescSorted(r, rest);
      StrLeTotal(s[0].timestamp, r.timestamp);
      assert NoNewerThan(rest, s[0].timestamp) by {
        forall i | 0 <= i < |rest| ensures StrLe(rest[i].timestamp, s[0].timestamp) {
          assert rest[i] == s[i + 1];
        }
      }
      InsertDescNoNewer(r, rest, s[0].timestamp);
      SortedCons(s[0], InsertDesc(r, rest));
    }
  }

  lemma {:induction false} SortDescCorrect(s: seq<Record>)
    ensures SortedDesc(SortDesc(s))
    ensures multiset(SortDesc(s)) == multiset(s)
    decreases |s|
  {
    if s != [] {
      SortDescCorrect(s[1..]);
      InsertDescSorted(s[0], SortDesc(s[1..]));
      InsertDescPermutes(s[0], SortDesc(s[1..]));
      assert s == [s[0]] + s[1..];
    }
  }

  /** A record matches a query when each queried field is present and holds that string. */
  predicate Matches(r: Record, query: map<string, string>) {
    forall k :: k in query ==> k in Document(r) && Document(r)[k] == JStr(query[k])
  }

  /** The matching records, in store order. */
  function Matching(events: seq<Record>, query: map<string, string>): seq<Record>
    decreases |events|
  {
    if events == [] then []
    else (if Matches(events[0], query) then [events[0]] else []) + Matching(events[1..], query)
  }

  lemma {:induction false} MatchingCorrect(events: seq<Record>, query: map<string, string>)
    ensures forall x :: x in Matching(events, query) <==> x in events && Matches(x, query)
    ensures multiset(Matching(events, query)) <= multiset(events)
    decreases |events|
  {
    if events != [] {
      MatchingCorrect(events[1..], query);
      assert events == [events[0]] + events[1..];
    }
  }

  /** The empty filter keeps every stored record, in store order. */
  lemma {:induction false} MatchingAll(events: seq<Record>)
    ensures Matching(events, map[]) == events
    decreases |events|
  {
    if events != [] {
      MatchingAll(events[1..]);
      assert Matches(events[0], map[]);
      assert events == [events[0]] + events[1..];
    }
  }

  function Min(a: nat, b: nat): nat { if a < b then a else b }

  /** `find(query).sort("timestamp", -1).limit(limit)` over the stored records. */
  function Select(events: seq<Record>, query: map<string, string>, limit: nat): (r: seq<Record>)
    ensures |r| <= limit
  {
    var sorted := SortDesc(Matching(events, query));
    sorted[..Min(limit, |sorted|)]
  }

  /** A prefix of a newest-first sequence is newest first, and nothing after it is newer than anything in it. */
  lemma PrefixOfSorted(t: seq<Record>, k: nat)
    requires SortedDesc(t) && k <= |t|
    ensures SortedDesc(t[..k])
    ensures multiset(t[..k]) <= multiset(t)
    ensures forall x, y :: x in t[..k] && y in t && y !in t[..k] ==> StrLe(y.timestamp, x.timestamp)
  {
    assert t == t[..k] + t[k..];
    forall x, y | x in t[..k] && y in t && y !in t[..k] ensures StrLe(y.timestamp, x.timestamp) {
      var j :| 0 <= j < |t| && t[j] == y;
      var i :| 0 <= i < k && t[..k][i] == x;
      assert t[i] == x;
    }
  }

  /**
   * The query returns at most `limit` records, as many as match when fewer
   * do; each is stored and matches; they come newest first; none is
   * returned more often than it is stored; and no matching record left out
   * is newer than one returned.
   */
  lemma SelectCorrect(events: seq<Record>, query: map<string, string>, limit: nat)
    ensures var r := Select(events, query, limit);
            && |r| == Min(limit, |Matching(events, query)|)
            && (forall x :: x in r ==> x in events && Matches(x, query))
            && SortedDesc(r)
            && multiset(r) <= multiset(events)
            && (forall x, y :: x in r && y in events && Matches(y, query) && y !in r ==>
                  StrLe(y.timestamp, x.timestamp))
  {
    var m := Matching(events, query);
    MatchingCorrect(events, query);
    SortDescCorrect(m);
    var sorted := SortDesc(m);
    assert |sorted| == |m| by {
      assert |multiset(sorted)| == |multiset(m)|;
    }
    var k := Min(limit, |sorted|);
    PrefixOfSorted(sorted, k);
    var r := sorted[..k];
    assert multiset(r) <= multiset(m);
    forall x | x in r ensures x in m {
      assert x in multiset(r);
    }
    forall y | y in events && Matches(y, query) ensures y in sorted {
      assert y in multiset(m);
    }
  }

  /** The event collection: records in insertion order, never updated or removed. */
  class EventStore {
    var events: seq<Record>

    constructor ()
      ensures events == []
    {
      events := [];
    }

    /**
     * `insert_one`: `fault` is what the database answers, None for success
     * or the text of the exception it raises; a refused insert stores nothing.
     */
    method InsertOne(r: Record, fault: Option<string>) returns (err: Option<string>)
      modifies this
      ensures err == fault
      ensures events == if fault.None? then old(events) + [r] else old(events)
    {
      if fault.Some? {
        return fault;
      }
      events := events + [r];
      return None;
    }

    /** `find(query).sort("timestamp", -1).limit(limit)`, `limit` being positive. */
    method Find(query: map<string, string>, limit: nat) returns (found: seq<Record>)
      requires limit > 0
      ensures found == Select(events, query, limit)
    {
      found := Select(events, query, limit);
    }
  }
}
