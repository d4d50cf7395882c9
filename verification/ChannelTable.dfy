/** The shared table of logical PDU channels and the private cache each process
    keeps over it. */
module ChannelTable {
  import opened Common
  import opened Names

  datatype Key = Key(name: string, channel: int)
  datatype Entry = Entry(key: Key, size: nat)
  type Cache = map<Key, int>

  predicate Matches(e: Key, k: Key) {
    e.channel == k.channel && SameName(e.name, k.name)
  }

  /** What the table scan tells keys apart by. */
  datatype Canon = Canon(channel: int, length: nat, seen: string)

  function CanonOf(k: Key): Canon { Canon(k.channel, |k.name|, CString(k.name)) }

  lemma MatchIsCanonical(e: Key, k: Key)
    ensures Matches(e, k) <==> CanonOf(e) == CanonOf(k)
  {
    SameNameMeans(e.name, k.name);
  }

  /** Without NUL bytes that is the key itself. */
  lemma CanonicalIsEquality(e: Key, k: Key)
    requires NulFree(e.name)
    ensures CanonOf(e) == CanonOf(k) <==> e == k
  {
    MatchIsCanonical(e, k);
    NulFreeMeans(e.name, k.name);
  }

  /** With NUL bytes in a name the scan takes two keys for one. */
  lemma NulNamesCollide()
    ensures Matches(Key("a\0b", 1), Key("a\0c", 1)) && Key("a\0b", 1) != Key("a\0c", 1)
  {
    assert "a\0b"[2] != "a\0c"[2];
    assert StrncmpEqual("a\0b", "a\0c", 1);
  }

  // ----- reference: a plain scan, and a plain list of distinct keys -----

  /** The first matching index at or after i, or -1. */
  function Scan(t: seq<Entry>, k: Key, i: nat): (r: int)
    requires i <= |t|
    ensures r == -1 || i <= r < |t|
    decreases |t| - i
  {
    if i == |t| then -1 else if Matches(t[i].key, k) then i else Scan(t, k, i + 1)
  }

  function Keys(t: seq<Entry>): seq<Key> {
    seq(|t|, i requires 0 <= i < |t| => t[i].key)
  }

  predicate Known(keys: seq<Key>, k: Key) {
    exists i :: 0 <= i < |keys| && CanonOf(keys[i]) == CanonOf(k)
  }

  /** Distinct keys in order of their first request, as many as the table holds, each
      with the size of that request. */
  function Admit(t: seq<Entry>, e: Entry): seq<Entry> {
    if |e.key.name| >= NAME_MAX || Known(Keys(t), e.key) || |t| >= CHANNEL_MAX then t else t + [e]
  }

  predicate Sound(t: seq<Entry>) {
    && |t| <= CHANNEL_MAX
    && (forall i, j :: 0 <= i < j < |t| ==> CanonOf(t[i].key) != CanonOf(t[j].key))
  }

  /** The n-th distinct key has id n, and an id is found for nothing else. */
  lemma {:induction false} ScanIsPosition(t: seq<Entry>, k: Key, i: nat)
    requires Sound(t) && i <= |t|
    ensures forall j :: i <= j < |t| ==> (CanonOf(t[j].key) == CanonOf(k) <==> Scan(t, k, i) == j)
    decreases |t| - i
  {
    if i < |t| {
      MatchIsCanonical(t[i].key, k);
      ScanIsPosition(t, k, i + 1);
    }
  }

  lemma {:induction false} ScanOfPrefix(t: seq<Entry>, u: seq<Entry>, k: Key, i: nat)
    requires i <= |t| && t <= u && Scan(t, k, i) >= 0
    ensures Scan(u, k, i) == Scan(t, k, i)
    decreases |t| - i
  {
    if !Matches(t[i].key, k) {
      ScanOfPrefix(t, u, k, i + 1);
    }
  }

  /** Everything cached is what a scan would find. */
  ghost predicate Agrees(c: Cache, t: seq<Entry>) {
    forall k :: k in c ==> c[k] >= 0 && c[k] == Scan(t, k, 0)
  }

  /** An entry appended by any process leaves every cache right. */
  lemma AgreementSurvives(c: Cache, t: seq<Entry>, u: seq<Entry>)
    requires Agrees(c, t) && t <= u
    ensures Agrees(c, u)
  {
    forall k | k in c
      ensures c[k] == Scan(u, k, 0)
    {
      ScanOfPrefix(t, u, k, 0);
    }
  }

  // ----- what one process does to its cache -----

  function Answer(c: Cache, t: seq<Entry>, k: Key): int { if k in c then c[k] else Scan(t, k, 0) }

  function Remembered(c: Cache, t: seq<Entry>, k: Key): Cache {
    if Answer(c, t, k) >= 0 then c[k := Answer(c, t, k)] else c
  }

  /** Entries with an empty name are not indexed; the scan still finds them. */
  function Rebuilt(t: seq<Entry>): Cache {
    map k | k in Keys(t) && |k.name| > 0 :: Scan(t, k, 0)
  }

  /** After indexing, exactly the table's non-empty names are answered from the cache;
      after a lookup, so is any key that was found. */
  lemma CachesWhatItShould(c: Cache, t: seq<Entry>, k: Key)
    requires Sound(t)
    ensures k in Rebuilt(t) <==> |k.name| > 0 && exists i :: 0 <= i < |t| && t[i].key == k
    ensures k in Remembered(c, t, k) <==> k in c || Scan(t, k, 0) >= 0
    ensures forall j :: j != k ==> (j in Remembered(c, t, k) <==> j in c) && (j in c ==> Remembered(c, t, k)[j] == c[j])
  {
    if i :| 0 <= i < |t| && t[i].key == k {
      assert Keys(t)[i] == k;
    }
    if k in Keys(t) {
      var i :| 0 <= i < |t| && Keys(t)[i] == k;
      assert t[i].key == k;
    }
  }

  function Created(c: Cache, t: seq<Entry>, k: Key, size: nat): (Cache, seq<Entry>) {
    if |k.name| >= NAME_MAX then (c, t)
    else
      var d := Remembered(c, t, k);
      if Answer(c, t, k) >= 0 || |t| >= CHANNEL_MAX then (d, t)
      else (d[k := |t|], t + [Entry(k, size)])
  }

  // ----- the objects -----

  /** Shared metadata: `channel_map` and `channel` up to `channel_num`. */
  class Table {
    var entries: seq<Entry>
    constructor ()
      ensures entries == []
    {
      entries := [];
    }
  }

  /** One process's view of the table. */
  class PduData {
    const table: Table
    var cache: Cache

    ghost predicate Valid()
      reads this, table
    {
      Sound(table.entries) && Agrees(cache, table.entries)
    }

    constructor (table: Table)
      requires Sound(table.entries)
      ensures Valid() && this.table == table
    {
      this.table := table;
      cache := map[];
      new;
      RebuildPduChannelIndex();
    }

    /** `get_pdu_channel`: cache first, then the table; the answer is the plain scan's. */
    method GetPduChannel(k: Key) returns (id: int)
      requires Valid()
      modifies this
      ensures Valid() && id == Scan(table.entries, k, 0)
      ensures cache == Remembered(old(cache), table.entries, k)
    {
      if k in cache {
        return cache[k];
      }
      var i := 0;
      while i < |table.entries|
        invariant 0 <= i <= |table.entries| && cache == old(cache)
        invariant Scan(table.entries, k, 0) == Scan(table.entries, k, i)
      {
        if Matches(table.entries[i].key, k) {
          cache := cache[k := i];
          return i;
        }
        i := i + 1;
      }
      return -1;
    }

    /** `create_lchannel`: on the table it is `Admit`, however stale the cache was. */
    method CreateLchannel(k: Key, size: nat) returns (ok: bool)
      requires Valid()
      modifies this, table
      ensures Valid() && old(table.entries) <= table.entries
      ensures table.entries == Admit(old(table.entries), Entry(k, size))
      ensures (cache, table.entries) == Created(old(cache), old(table.entries), k, size)
      ensures ok <==> Known(Keys(table.entries), k) && |k.name| < NAME_MAX
    {
      ghost var t := table.entries;
      if |k.name| >= NAME_MAX {
        return false;
      }
      ScanIsPosition(t, k, 0);
      var id := GetPduChannel(k);
      if id >= 0 {
        assert CanonOf(Keys(t)[id]) == CanonOf(k);
        return true;
      }
      assert !Known(Keys(t), k);
      var newId := |table.entries|;
      if newId >= CHANNEL_MAX {
        return false;
      }
      table.entries := table.entries + [Entry(k, size)];
      ScanIsPosition(table.entries, k, 0);
      assert table.entries[newId].key == k;
      AgreementSurvives(cache, t, table.entries);
      cache := cache[k := newId];
      assert Keys(table.entries) == Keys(t) + [k];
      assert Keys(table.entries)[newId] == k;
      return true;
    }

    /** `rebuild_pdu_channel_index`, run by the constructor, `load`, `create` and `reset`. */
    method RebuildPduChannelIndex()
      requires Sound(table.entries)
      modifies this
      ensures Valid()
      ensures cache == Rebuilt(table.entries)
    {
      cache := map[];
      var i := 0;
      while i < |table.entries|
        invariant 0 <= i <= |table.entries| && Agrees(cache, table.entries)
        invariant forall j :: 0 <= j < i && |table.entries[j].key.name| > 0 ==> table.entries[j].key in cache
        invariant forall k :: k in cache ==> k in Keys(table.entries) && |k.name| > 0
      {
        var k := table.entries[i].key;
        assert Keys(table.entries)[i] == k;
        if |k.name| > 0 {
          if k !in cache {
            ScanIsPosition(table.entries, k, 0);
            cache := cache[k := i];
          }
        }
        i := i + 1;
      }
    }
  }

  // ----- many processes -----

  /** `requests`: what was passed to `create_lchannel` so far, by anybody. */
  datatype System = System(entries: seq<Entry>, caches: seq<Cache>, requests: seq<Entry>)

  datatype Step =
    | Join                                // a process attaches and indexes the table
    | Reindex(who: nat)                   // load, create or reset
    | Lookup(who: nat, key: Key)
    | CreateBy(who: nat, key: Key, size: nat)

  predicate Enabled(s: System, step: Step) {
    match step
    case Join => true
    case Reindex(p) => p < |s.caches|
    case Lookup(p, k) => p < |s.caches|
    case CreateBy(p, k, size) => p < |s.caches|
  }

  function Next(s: System, step: Step): System
    requires Enabled(s, step)
  {
    match step
    case Join => s.(caches := s.caches + [Rebuilt(s.entries)])
    case Reindex(p) => s.(caches := s.caches[p := Rebuilt(s.entries)])
    case Lookup(p, k) => s.(caches := s.caches[p := Remembered(s.caches[p], s.entries, k)])
    case CreateBy(p, k, size) =>
      var (c, t) := Created(s.caches[p], s.entries, k, size);
      System(t, s.caches[p := c], s.requests + [Entry(k, size)])
  }

  predicate IsRun(ss: seq<System>, steps: seq<Step>) {
    && |ss| == |steps| + 1 && ss[0] == System([], [], [])
    && forall i :: 0 <= i < |steps| ==> Enabled(ss[i], steps[i]) && ss[i + 1] == Next(ss[i], steps[i])
  }

  function AdmitAll(requests: seq<Entry>): seq<Entry> {
    if requests == [] then [] else Admit(AdmitAll(requests[..|requests| - 1]), requests[|requests| - 1])
  }

  ghost predicate Inv(s: System) {
    && Sound(s.entries)
    && s.entries == AdmitAll(s.requests)
    && forall p :: 0 <= p < |s.caches| ==> Agrees(s.caches[p], s.entries)
  }

  lemma RebuiltAgrees(t: seq<Entry>)
    requires Sound(t)
    ensures Agrees(Rebuilt(t), t)
  {
    forall k | k in Rebuilt(t)
      ensures Scan(t, k, 0) >= 0
    {
      var j :| 0 <= j < |t| && Keys(t)[j] == k;
      ScanIsPosition(t, k, 0);
      assert t[j].key == k;
    }
  }

  lemma CreatedKeeps(c: Cache, t: seq<Entry>, k: Key, size: nat)
    requires Sound(t) && Agrees(c, t)
    ensures var (d, u) := Created(c, t, k, size);
            Sound(u) && t <= u && Agrees(d, u) && u == Admit(t, Entry(k, size))
  {
    var (d, u) := Created(c, t, k, size);
    ScanIsPosition(t, k, 0);
    if Scan(t, k, 0) >= 0 {
      assert CanonOf(Keys(t)[Scan(t, k, 0)]) == CanonOf(k);
    } else if |k.name| < NAME_MAX && |t| < CHANNEL_MAX {
      assert Keys(u) == Keys(t) + [k];
      ScanIsPosition(u, k, 0);
      assert u[|t|].key == k;
      AgreementSurvives(c, t, u);
    }
  }

  lemma StepKeepsInv(s: System, step: Step)
    requires Inv(s) && Enabled(s, step)
    ensures Inv(Next(s, step))
  {
    match step
    case Join => RebuiltAgrees(s.entries);
    case Reindex(p) => RebuiltAgrees(s.entries);
    case Lookup(p, k) =>
    case CreateBy(p, k, size) =>
      var s' := Next(s, step);
      CreatedKeeps(s.caches[p], s.entries, k, size);
      assert s'.requests[..|s.requests|] == s.requests;
      forall q | 0 <= q < |s'.caches|
        ensures Agrees(s'.caches[q], s'.entries)
      {
        if q != p {
          AgreementSurvives(s.caches[q], s.entries, s'.entries);
        }
      }
  }

  /** A process that joins or reindexes answers every non-empty name of the table from
      its cache; one that looks up or creates a channel answers it so from then on, if
      it exists; and nobody else's cache is touched. */
  lemma StepsFillCaches(s: System, step: Step, p: nat, k: Key)
    requires Inv(s) && Enabled(s, step) && p < |Next(s, step).caches|
    ensures var t := Next(s, step);
            && |t.caches| == |s.caches| + (if step.Join? then 1 else 0)
            && ((step.Join? && p == |s.caches|) || (step.Reindex? && p == step.who) ==>
                  (k in t.caches[p] <==> |k.name| > 0 && exists i :: 0 <= i < |t.entries| && t.entries[i].key == k))
            && ((step.Lookup? || step.CreateBy?) && p == step.who ==>
                  && (step.key in t.caches[p] <==>
                        step.key in s.caches[p]
                        || (Scan(t.entries, step.key, 0) >= 0 && (step.Lookup? || |step.key.name| < 256)))
                  && (k != step.key ==> (k in t.caches[p] <==> k in s.caches[p])))
            && (p < |s.caches| && !(!step.Join? && p == step.who) ==> t.caches[p] == s.caches[p])
  {
    match step
    case Join => CachesWhatItShould(map[], s.entries, k);
    case Reindex(_) => CachesWhatItShould(map[], s.entries, k);
    case Lookup(q, key) => CachesWhatItShould(s.caches[q], s.entries, key);
    case CreateBy(q, key, size) =>
      CreatedKeeps(s.caches[q], s.entries, key, size);
      ScanIsPosition(s.entries, key, 0);
      ScanIsPosition(Next(s, step).entries, key, 0);
  }

  lemma {:induction false} InvAlways(ss: seq<System>, steps: seq<Step>, i: nat)
    requires IsRun(ss, steps) && i < |ss|
    ensures Inv(ss[i])
  {
    if i > 0 {
      InvAlways(ss, steps, i - 1);
      StepKeepsInv(ss[i - 1], steps[i - 1]);
    }
  }

  /** The n-th request is the first for its key, as C sees keys. */
  predicate IsFirst(requests: seq<Entry>, n: nat)
    requires n < |requests|
  {
    forall m :: 0 <= m < n ==> CanonOf(requests[m].key) != CanonOf(requests[n].key)
  }

  /** Unless the table is full, every request whose name is short enough is in it. */
  lemma {:induction false} RequestsAreKnown(requests: seq<Entry>)
    ensures Sound(AdmitAll(requests))
    ensures |AdmitAll(requests)| < 8192 ==>
              forall n :: 0 <= n < |requests| && |requests[n].key.name| < 256 ==>
                Known(Keys(AdmitAll(requests)), requests[n].key)
  {
    if requests != [] {
      var last := |requests| - 1;
      var rest := requests[..last];
      RequestsAreKnown(rest);
      var t, u, e := AdmitAll(rest), AdmitAll(requests), requests[last];
      AdmitKeepsSound(t, e);
      forall n | |u| < 8192 && 0 <= n < |requests| && |requests[n].key.name| < 256
        ensures Known(Keys(u), requests[n].key)
      {
        StillKnown(t, u, requests[n].key);
        if n < last {
          assert rest[n] == requests[n];
        } else if u != t {
          assert Keys(u)[|t|] == e.key;
        }
      }
      hide CanonOf, Known, Sound;
    }
  }

  lemma AdmitKeepsSound(t: seq<Entry>, e: Entry)
    requires Sound(t)
    ensures Sound(Admit(t, e))
  {
    if !Known(Keys(t), e.key) {
      forall i | 0 <= i < |t|
        ensures CanonOf(t[i].key) != CanonOf(e.key)
      {
        assert Keys(t)[i] == t[i].key;
      }
    }
  }

  /** And each entry is the first request for its key, with that request's size: the
      table is the list of distinct requests in their order. */
  lemma {:induction false} AdmittedAreFirsts(requests: seq<Entry>, i: nat) returns (n: nat)
    requires i < |AdmitAll(requests)|
    ensures n < |requests| && requests[n] == AdmitAll(requests)[i] && IsFirst(requests, n)
    ensures |requests[n].key.name| < 256
  {
    var last := |requests| - 1;
    var rest := requests[..last];
    var t := AdmitAll(rest);
    if i < |t| {
      n := AdmittedAreFirsts(rest, i);
    } else {
      n := last;
      RequestsAreKnown(rest);
      forall m | 0 <= m < last
        ensures CanonOf(requests[m].key) != CanonOf(requests[last].key)
      {
        SameCanonSameLength(requests[m].key, requests[last].key);
        assert requests[m] == rest[m];
      }
    }
    hide CanonOf;
  }

  lemma SameCanonSameLength(j: Key, k: Key)
    ensures CanonOf(j) == CanonOf(k) ==> |j.name| == |k.name|
  {
  }

  lemma StillKnown(t: seq<Entry>, u: seq<Entry>, k: Key)
    requires t <= u
    ensures Known(Keys(t), k) ==> Known(Keys(u), k)
  {
    if Known(Keys(t), k) {
      var i :| 0 <= i < |Keys(t)| && CanonOf(Keys(t)[i]) == CanonOf(k);
      assert Keys(u)[i] == Keys(t)[i];
    }
  }

  /** In every run of any number of processes with their own caches, a lookup by any
      of them answers like a plain scan of the table, which holds the distinct
      requests in order; so the n-th distinct key has id n. Keys are told apart
      as C sees them: for names without NULs, exactly. */
  lemma CacheAgreesWithTable(ss: seq<System>, steps: seq<Step>, i: nat, p: nat, k: Key)
    requires IsRun(ss, steps) && i < |ss| && p < |ss[i].caches|
    ensures Answer(ss[i].caches[p], ss[i].entries, k) == Scan(ss[i].entries, k, 0)
    ensures ss[i].entries == AdmitAll(ss[i].requests)
    ensures forall n :: 0 <= n < |ss[i].entries| ==>
              (CanonOf(ss[i].entries[n].key) == CanonOf(k) <==> Answer(ss[i].caches[p], ss[i].entries, k) == n)
    ensures forall n :: 0 <= n < |ss[i].entries| && NulFree(k.name) ==>
              (ss[i].entries[n].key == k <==> Answer(ss[i].caches[p], ss[i].entries, k) == n)
  {
    InvAlways(ss, steps, i);
    var t := ss[i].entries;
    assert Agrees(ss[i].caches[p], t);
    ScanIsPosition(t, k, 0);
    forall n | 0 <= n < |t|
      ensures NulFree(k.name) ==> (CanonOf(t[n].key) == CanonOf(k) <==> t[n].key == k)
    {
      if NulFree(k.name) {
        CanonicalIsEquality(k, t[n].key);
      }
    }
  }
}
