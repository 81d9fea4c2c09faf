/**
 The per-day cache of previous closes (app/adapters/ibkr.py). A call answers from today's
 hits and misses, fetches the rest and records what came back.
 */
module PreviousClose {
  import opened Broker

  /** A close and the UTC day it was recorded on. */
  datatype Close = Close(day: int, value: real)

  datatype Cache = Cache(hits: map<nat, Close>, misses: map<nat, int>)

  datatype Answer = Known(value: real) | Absent | Unknown

  function AnswerOn(c: Cache, conid: nat, day: int): Answer {
    if conid in c.hits && c.hits[conid].day == day then Known(c.hits[conid].value)
    else if conid in c.misses && c.misses[conid] == day then Absent
    else Unknown
  }

  /** What one fetch answers; None where the vendor had nothing. */
  type Fetch = nat -> Option<real>

  function Kept(fetch: Fetch, conid: nat): Answer {
    match fetch(conid)
    case Some(value) => if value > 0.0 then Known(value) else Absent
    case None => Absent
  }

  /** The first n contracts that need a fetch, in order. */
  function Missing(c: Cache, contracts: seq<nat>, day: int, n: nat): seq<nat>
    requires n <= |contracts|
  {
    if n == 0 then []
    else
      Missing(c, contracts, day, n - 1)
      + if AnswerOn(c, contracts[n - 1], day).Unknown? then [contracts[n - 1]] else []
  }

  predicate Distinct(s: seq<nat>) { forall i, j | 0 <= i < j < |s| :: s[i] != s[j] }

  function Elements(s: seq<nat>): set<nat> { set x | x in s }

  lemma {:induction false} MissingIsUnknown(c: Cache, contracts: seq<nat>, day: int, n: nat)
    requires n <= |contracts|
    ensures forall conid ::
      conid in Missing(c, contracts, day, n) <==> conid in contracts[..n] && AnswerOn(c, conid, day).Unknown?
    ensures Distinct(contracts) ==> Distinct(Missing(c, contracts, day, n))
  {
    if n > 0 {
      MissingIsUnknown(c, contracts, day, n - 1);
      assert contracts[..n] == contracts[..n - 1] + [contracts[n - 1]];
    }
  }

  function Unknowns(c: Cache, contracts: seq<nat>, day: int): set<nat> {
    set conid | conid in contracts && AnswerOn(c, conid, day).Unknown?
  }

  /** The cache once a fetch of `conids` is recorded. A hit clears the miss record, a miss
      leaves an older hit where it is. */
  function Recorded(c: Cache, conids: set<nat>, day: int, fetch: Fetch): Cache {
    var found := set conid | conid in conids && Kept(fetch, conid).Known?;
    Cache(c.hits + (map conid | conid in found :: Close(day, Kept(fetch, conid).value)),
          (c.misses - found) + (map conid | conid in conids - found :: day))
  }

  /** What the cache says of each contract. */
  function Served(c: Cache, contracts: seq<nat>, day: int): map<nat, real> {
    map conid | conid in contracts && AnswerOn(c, conid, day).Known? :: AnswerOn(c, conid, day).value
  }

  // The same, one contract after another, as the two loops do it.

  function WithHits(c: Cache, fetched: seq<nat>, day: int, fetch: Fetch, n: nat): Cache
    requires n <= |fetched|
  {
    if n == 0 then c
    else
      var before := WithHits(c, fetched, day, fetch, n - 1);
      match Kept(fetch, fetched[n - 1])
      case Known(value) => Cache(before.hits[fetched[n - 1] := Close(day, value)], before.misses - {fetched[n - 1]})
      case _ => before
  }

  function WithValues(out: map<nat, real>, fetched: seq<nat>, fetch: Fetch, n: nat): map<nat, real>
    requires n <= |fetched|
  {
    if n == 0 then out
    else
      var before := WithValues(out, fetched, fetch, n - 1);
      match Kept(fetch, fetched[n - 1])
      case Known(value) => before[fetched[n - 1] := value]
      case _ => before
  }

  function WithMisses(c: Cache, fetched: seq<nat>, day: int, fetch: Fetch, n: nat): Cache
    requires n <= |fetched|
  {
    if n == 0 then c
    else
      var before := WithMisses(c, fetched, day, fetch, n - 1);
      if Kept(fetch, fetched[n - 1]).Known? then before else before.(misses := before.misses[fetched[n - 1] := day])
  }

  lemma {:induction false} WithHitsAt(c: Cache, fetched: seq<nat>, day: int, fetch: Fetch, n: nat, conid: nat)
    requires n <= |fetched|
    ensures var t := WithHits(c, fetched, day, fetch, n);
      if conid in fetched[..n] && Kept(fetch, conid).Known?
      then conid in t.hits && t.hits[conid] == Close(day, Kept(fetch, conid).value) && conid !in t.misses
      else (conid in t.hits <==> conid in c.hits) && (conid in t.misses <==> conid in c.misses)
           && (conid in c.hits ==> t.hits[conid] == c.hits[conid])
           && (conid in c.misses ==> t.misses[conid] == c.misses[conid])
  {
    if n > 0 {
      WithHitsAt(c, fetched, day, fetch, n - 1, conid);
      assert fetched[..n] == fetched[..n - 1] + [fetched[n - 1]];
    }
  }

  lemma {:induction false} WithMissesAt(c: Cache, fetched: seq<nat>, day: int, fetch: Fetch, n: nat, conid: nat)
    requires n <= |fetched|
    ensures var t := WithMisses(c, fetched, day, fetch, n);
      && t.hits == c.hits
      && if conid in fetched[..n] && !Kept(fetch, conid).Known?
         then conid in t.misses && t.misses[conid] == day
         else (conid in t.misses <==> conid in c.misses) && (conid in c.misses ==> t.misses[conid] == c.misses[conid])
  {
    if n > 0 {
      WithMissesAt(c, fetched, day, fetch, n - 1, conid);
      assert fetched[..n] == fetched[..n - 1] + [fetched[n - 1]];
    }
  }

  lemma {:induction false} WithValuesAt(out: map<nat, real>, fetched: seq<nat>, fetch: Fetch, n: nat, conid: nat)
    requires n <= |fetched|
    ensures var t := WithValues(out, fetched, fetch, n);
      if conid in fetched[..n] && Kept(fetch, conid).Known?
      then conid in t && t[conid] == Kept(fetch, conid).value
      else (conid in t <==> conid in out) && (conid in out ==> t[conid] == out[conid])
  {
    if n > 0 {
      WithValuesAt(out, fetched, fetch, n - 1, conid);
      assert fetched[..n] == fetched[..n - 1] + [fetched[n - 1]];
    }
  }

  /** The loops record the fetch as a whole, whatever its order. */
  lemma LoopsRecord(c: Cache, fetched: seq<nat>, day: int, fetch: Fetch)
    ensures WithMisses(WithHits(c, fetched, day, fetch, |fetched|), fetched, day, fetch, |fetched|)
         == Recorded(c, Elements(fetched), day, fetch)
  {
    var h := WithHits(c, fetched, day, fetch, |fetched|);
    var t, r := WithMisses(h, fetched, day, fetch, |fetched|), Recorded(c, Elements(fetched), day, fetch);
    assert fetched[..|fetched|] == fetched;
    forall conid: nat
      ensures (conid in t.hits <==> conid in r.hits) && (conid in t.hits ==> t.hits[conid] == r.hits[conid])
      ensures (conid in t.misses <==> conid in r.misses) && (conid in t.misses ==> t.misses[conid] == r.misses[conid])
    {
      WithHitsAt(c, fetched, day, fetch, |fetched|, conid);
      WithMissesAt(h, fetched, day, fetch, |fetched|, conid);
    }
    assert t.hits == r.hits && t.misses == r.misses;
  }

  /** A call returns what the cache says once its fetch is recorded. */
  lemma ServedAfter(c: Cache, contracts: seq<nat>, day: int, fetched: seq<nat>, fetch: Fetch)
    requires Elements(fetched) == Unknowns(c, contracts, day)
    ensures WithMisses(WithHits(c, fetched, day, fetch, |fetched|), fetched, day, fetch, |fetched|)
         == Recorded(c, Unknowns(c, contracts, day), day, fetch)
    ensures WithValues(Served(c, contracts, day), fetched, fetch, |fetched|)
         == Served(Recorded(c, Unknowns(c, contracts, day), day, fetch), contracts, day)
  {
    LoopsRecord(c, fetched, day, fetch);
    var t := WithValues(Served(c, contracts, day), fetched, fetch, |fetched|);
    var r := Recorded(c, Elements(fetched), day, fetch);
    assert fetched[..|fetched|] == fetched;
    forall conid: nat
      ensures conid in t <==> conid in Served(r, contracts, day)
      ensures conid in t ==> t[conid] == Served(r, contracts, day)[conid]
    {
      WithValuesAt(Served(c, contracts, day), fetched, fetch, |fetched|, conid);
      assert conid in fetched <==> conid in Elements(fetched);
      RecordedAnswers(c, Elements(fetched), day, fetch, conid, day);
    }
  }

  ghost predicate Disjoint(c: Cache) {
    forall conid | conid in c.hits && conid in c.misses :: c.hits[conid].day != c.misses[conid]
  }

  /** A fetch that comes back empty puts a contract on both records exactly when a hit was
      recorded the same day while it was away, which takes two overlapping calls. */
  lemma RecordingKeepsDisjoint(c: Cache, conids: set<nat>, day: int, fetch: Fetch)
    requires Disjoint(c)
    ensures Disjoint(Recorded(c, conids, day, fetch))
        <==> forall conid | conid in conids && Kept(fetch, conid).Absent? :: !AnswerOn(c, conid, day).Known?
  {
    var t := Recorded(c, conids, day, fetch);
    forall conid | conid in conids && Kept(fetch, conid).Absent? && AnswerOn(c, conid, day).Known?
      ensures !Disjoint(t)
    {
      assert conid in t.hits && conid in t.misses && t.hits[conid].day == t.misses[conid];
    }
  }

  /** Two overlapping calls for one contract, the first to end with a close, the other without. */
  lemma OverlapRecordsBoth(conid: nat, day: int, close: real)
    requires close > 0.0
    ensures var empty := Cache(map[], map[]);
      var first := Recorded(empty, Unknowns(empty, [conid], day), day, _ => Some(close));
      var both := Recorded(first, Unknowns(empty, [conid], day), day, _ => None);
      Disjoint(first) && !Disjoint(both) && AnswerOn(both, conid, day) == Known(close)
  {
    var empty := Cache(map[], map[]);
    var first := Recorded(empty, Unknowns(empty, [conid], day), day, _ => Some(close));
    assert conid in Unknowns(empty, [conid], day);
    RecordingKeepsDisjoint(first, Unknowns(empty, [conid], day), day, _ => None);
  }

  /** What a recorded fetch changes: the answers of that day for what it fetched. */
  lemma RecordedAnswers(c: Cache, conids: set<nat>, day: int, fetch: Fetch, conid: nat, d: int)
    requires conid in conids ==> AnswerOn(c, conid, d).Unknown?
    ensures AnswerOn(Recorded(c, conids, day, fetch), conid, d)
         == if conid in conids && d == day then Kept(fetch, conid) else AnswerOn(c, conid, d)
  {
  }

  // ---- runs of sequential calls -------------------------------------------------------

  datatype Request = Request(contracts: seq<nat>, day: int, fetch: Fetch)

  function CacheAt(rs: seq<Request>, n: nat): Cache
    requires n <= |rs|
  {
    if n == 0 then Cache(map[], map[])
    else
      var c := CacheAt(rs, n - 1);
      var r := rs[n - 1];
      Recorded(c, Unknowns(c, r.contracts, r.day), r.day, r.fetch)
  }

  /** The UTC date never goes back. */
  predicate Monotone(rs: seq<Request>) {
    forall i, j | 0 <= i < j < |rs| :: rs[i].day <= rs[j].day
  }

  predicate Asks(r: Request, conid: nat, day: int) { r.day == day && conid in r.contracts }

  /** The first of n requests to ask for the contract that day. */
  function FirstAsk(rs: seq<Request>, n: nat, conid: nat, day: int): (i: Option<nat>)
    requires n <= |rs|
    ensures i.Some? ==> i.value < n && Asks(rs[i.value], conid, day)
                        && forall j | 0 <= j < i.value :: !Asks(rs[j], conid, day)
    ensures i.None? ==> forall j | 0 <= j < n :: !Asks(rs[j], conid, day)
  {
    if n == 0 then None
    else
      var before := FirstAsk(rs, n - 1, conid, day);
      if before.Some? then before else if Asks(rs[n - 1], conid, day) then Some(n - 1) else None
  }

  /** Direct lookup: the fetch of the first request of the day, if there was one. */
  function Direct(rs: seq<Request>, n: nat, conid: nat, day: int): Answer
    requires n <= |rs|
  {
    match FirstAsk(rs, n, conid, day)
    case Some(i) => Kept(rs[i].fetch, conid)
    case None => Unknown
  }

  /** From the last call's day on, the cache is the direct lookup. */
  lemma {:induction false} CacheIsDirect(rs: seq<Request>, n: nat, conid: nat, day: int)
    requires n <= |rs| && Monotone(rs)
    requires n > 0 ==> rs[n - 1].day <= day
    ensures AnswerOn(CacheAt(rs, n), conid, day) == Direct(rs, n, conid, day)
  {
    if n > 0 {
      CacheIsDirect(rs, n - 1, conid, day);
      var r, c := rs[n - 1], CacheAt(rs, n - 1);
      assert r.day < day ==> Direct(rs, n - 1, conid, day).Unknown?;
      RecordedAnswers(c, Unknowns(c, r.contracts, r.day), r.day, r.fetch, conid, day);
    }
  }

  /** For sequential calls, every answer equals the first fetch of that contract that day,
      present or absent; a call fetches a contract exactly when it is the first to ask that
      day; and no contract is recorded as both hit and miss for one day. */
  lemma FirstFetchDecidesTheDay(rs: seq<Request>, j: nat, conid: nat)
    requires Monotone(rs) && j < |rs| && conid in rs[j].contracts
    ensures var day := rs[j].day; var first := FirstAsk(rs, j + 1, conid, day);
      && first.Some?
      && (conid in Served(CacheAt(rs, j + 1), rs[j].contracts, day) <==> Kept(rs[first.value].fetch, conid).Known?)
      && (conid in Served(CacheAt(rs, j + 1), rs[j].contracts, day) ==>
            Known(Served(CacheAt(rs, j + 1), rs[j].contracts, day)[conid]) == Kept(rs[first.value].fetch, conid))
      && (conid in Unknowns(CacheAt(rs, j), rs[j].contracts, day) <==> first.value == j)
    ensures Disjoint(CacheAt(rs, j + 1))
  {
    CacheIsDirect(rs, j + 1, conid, rs[j].day);
    CacheIsDirect(rs, j, conid, rs[j].day);
    RunKeepsDisjoint(rs, j + 1);
  }

  lemma {:induction false} RunKeepsDisjoint(rs: seq<Request>, n: nat)
    requires n <= |rs|
    ensures Disjoint(CacheAt(rs, n))
  {
    if n > 0 {
      RunKeepsDisjoint(rs, n - 1);
      var c := CacheAt(rs, n - 1);
      RecordingKeepsDisjoint(c, Unknowns(c, rs[n - 1].contracts, rs[n - 1].day), rs[n - 1].day, rs[n - 1].fetch);
    }
  }

  /** A close that is not positive counts as none: whatever was fetched, only positive closes
      are ever served, each one some fetch of that contract brought back. */
  lemma {:induction false} OnlyPositiveClosesAreServed(rs: seq<Request>, n: nat, conid: nat)
    requires n <= |rs| && conid in CacheAt(rs, n).hits
    ensures CacheAt(rs, n).hits[conid].value > 0.0
    ensures exists i :: 0 <= i < n && rs[i].fetch(conid) == Some(CacheAt(rs, n).hits[conid].value)
  {
    if n > 0 {
      var c, r := CacheAt(rs, n - 1), rs[n - 1];
      HitsComeFromFetches(c, Unknowns(c, r.contracts, r.day), r.day, r.fetch, conid);
      var value := CacheAt(rs, n).hits[conid].value;
      if r.fetch(conid) == Some(value) && value > 0.0 {
        assert rs[n - 1].fetch(conid) == Some(value);
      } else {
        OnlyPositiveClosesAreServed(rs, n - 1, conid);
      }
    }
  }

  lemma HitsComeFromFetches(c: Cache, conids: set<nat>, day: int, fetch: Fetch, conid: nat)
    requires conid in Recorded(c, conids, day, fetch).hits
    ensures var value := Recorded(c, conids, day, fetch).hits[conid].value;
      (fetch(conid) == Some(value) && value > 0.0) || (conid in c.hits && c.hits[conid].value == value)
  {
  }

  /** So two calls of one day never both fetch a contract. */
  lemma AtMostOneFetchADay(rs: seq<Request>, i: nat, j: nat, conid: nat)
    requires Monotone(rs) && i < j < |rs| && rs[i].day == rs[j].day
    requires conid in Unknowns(CacheAt(rs, i), rs[i].contracts, rs[i].day)
    ensures conid !in Unknowns(CacheAt(rs, j), rs[j].contracts, rs[j].day)
  {
    if conid in rs[j].contracts {
      FirstFetchDecidesTheDay(rs, j, conid);
      assert Asks(rs[i], conid, rs[j].day);
    }
  }

  class PreviousCloseCache {
    var hits: map<nat, Close>
    var misses: map<nat, int>

    function State(): Cache
      reads this
    {
      Cache(hits, misses)
    }

    constructor ()
      ensures State() == Cache(map[], map[])
    {
      hits := map[];
      misses := map[];
    }

    /** _fetch_previous_closes_cached: `fetched` is what went over the network. */
    method FetchCached(contracts: seq<nat>, today: int, fetch: Fetch) returns (out: map<nat, real>, fetched: seq<nat>)
      modifies this
      ensures State() == Recorded(old(State()), Unknowns(old(State()), contracts, today), today, fetch)
      ensures out == Served(State(), contracts, today)
      ensures fetched == Missing(old(State()), contracts, today, |contracts|)
      ensures Distinct(contracts) ==> Distinct(fetched)
    {
      out, fetched := AnswerFromCache(contracts, today);
      MissingIsUnknown(State(), contracts, today, |contracts|);
      assert contracts[..|contracts|] == contracts;
      assert Elements(fetched) == Unknowns(State(), contracts, today);
      ServedAfter(State(), contracts, today, fetched, fetch);
      out := RecordHits(fetched, today, fetch, out);
      RecordMisses(fetched, today, fetch);
    }

    method AnswerFromCache(contracts: seq<nat>, today: int) returns (out: map<nat, real>, fetched: seq<nat>)
      ensures out == Served(State(), contracts, today)
      ensures fetched == Missing(State(), contracts, today, |contracts|)
    {
      out := map[];
      fetched := [];
      for i := 0 to |contracts|
        invariant out == Served(State(), contracts[..i], today)
        invariant fetched == Missing(State(), contracts, today, i)
      {
        var conid := contracts[i];
        assert contracts[..i + 1] == contracts[..i] + [conid];
        if conid in hits && hits[conid].day == today {
          out := out[conid := hits[conid].value];
        } else if conid in misses && misses[conid] == today {
        } else {
          fetched := fetched + [conid];
        }
      }
      assert contracts[..|contracts|] == contracts;
    }

    method RecordHits(fetched: seq<nat>, today: int, fetch: Fetch, cached: map<nat, real>) returns (out: map<nat, real>)
      modifies this
      ensures State() == WithHits(old(State()), fetched, today, fetch, |fetched|)
      ensures out == WithValues(cached, fetched, fetch, |fetched|)
    {
      out := cached;
      for i := 0 to |fetched|
        invariant State() == WithHits(old(State()), fetched, today, fetch, i)
        invariant out == WithValues(cached, fetched, fetch, i)
      {
        var kept := Kept(fetch, fetched[i]);
        if kept.Known? {
          hits := hits[fetched[i] := Close(today, kept.value)];
          misses := misses - {fetched[i]};
          out := out[fetched[i] := kept.value];
        }
      }
    }

    method RecordMisses(fetched: seq<nat>, today: int, fetch: Fetch)
      modifies this
      ensures State() == WithMisses(old(State()), fetched, today, fetch, |fetched|)
    {
      for i := 0 to |fetched|
        invariant State() == WithMisses(old(State()), fetched, today, fetch, i)
      {
        if !Kept(fetch, fetched[i]).Known? {
          misses := misses[fetched[i] := today];
        }
      }
    }
  }
}
