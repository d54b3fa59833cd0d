/**
  Data contracts shared by the scoring, progression and persistence code:
  bands, answers, quests, garden elements and check-in records, plus the
  insertion-ordered string-keyed dictionary that stands for a JavaScript
  object used as a map (`{ ...prev, [key]: value }`).
*/
module Records {

  import opened Wrappers

  /** The three bands a domain score falls into. */
  datatype Level = Low | Medium | High

  /** A raw answer. Sliders and choice buttons always produce numbers; the
      other case stands for any non-number value a response map might hold. */
  datatype Answer = Number(value: real) | NonNumber

  // ---------------------------------------------------------------------
  // Insertion-ordered dictionaries
  // ---------------------------------------------------------------------

  datatype Entry<V> = Entry(key: string, value: V)

  function Keys<V>(d: seq<Entry<V>>): (ks: seq<string>)
    ensures |ks| == |d|
    ensures forall i :: 0 <= i < |d| ==> ks[i] == d[i].key
  {
    if d == [] then [] else [d[0].key] + Keys(d[1..])
  }

  /** No key occurs twice: the shape of every JavaScript object. */
  predicate DistinctKeys<V>(d: seq<Entry<V>>) {
    forall i, j :: 0 <= i < j < |d| ==> d[i].key != d[j].key
  }

  predicate HasKey<V>(d: seq<Entry<V>>, k: string) {
    exists i :: 0 <= i < |d| && d[i].key == k
  }

  /** `d[k]`: the value of the first entry with key `k`. */
  function Get<V>(d: seq<Entry<V>>, k: string): (r: Option<V>)
    ensures r.None? <==> !HasKey(d, k)
    ensures r.Some? ==> exists i :: 0 <= i < |d| && d[i] == Entry(k, r.value)
  {
    if d == [] then None
    else if d[0].key == k then Some(d[0].value)
    else
      var r := Get(d[1..], k);
      assert r.Some? ==> exists i :: 0 <= i < |d| - 1 && d[1..][i] == Entry(k, r.value);
      assert HasKey(d[1..], k) ==> HasKey(d, k);
      assert HasKey(d, k) ==> HasKey(d[1..], k);
      r
  }

  /** `{ ...d, [k]: v }`: an existing key keeps its position and gets the new
      value; a new key is appended. */
  function Put<V>(d: seq<Entry<V>>, k: string, v: V): (r: seq<Entry<V>>)
  {
    if d == [] then [Entry(k, v)]
    else if d[0].key == k then [Entry(k, v)] + d[1..]
    else [d[0]] + Put(d[1..], k, v)
  }

  /** `{ ...d, ...e }`: the entries of `e` put into `d` one after the other. */
  function Merge<V>(d: seq<Entry<V>>, e: seq<Entry<V>>): (r: seq<Entry<V>>)
    ensures forall k :: HasKey(d, k) || HasKey(e, k) ==> HasKey(r, k)
    decreases |e|
  {
    if e == [] then d
    else
      PutHasKey(d, e[0].key, e[0].value);
      HasKeyCons(e);
      Merge(Put(d, e[0].key, e[0].value), e[1..])
  }

  /** A write adds its key and keeps every other. */
  lemma PutHasKey<V>(d: seq<Entry<V>>, k: string, v: V)
    ensures forall k' :: HasKey(Put(d, k, v), k') <==> HasKey(d, k') || k' == k
  {
    forall k' ensures HasKey(Put(d, k, v), k') <==> HasKey(d, k') || k' == k {
      PutGet(d, k, v, k');
    }
  }

  lemma HasKeyCons<V>(e: seq<Entry<V>>)
    requires e != []
    ensures forall k :: HasKey(e, k) <==> e[0].key == k || HasKey(e[1..], k)
  {
    forall k | HasKey(e[1..], k) ensures HasKey(e, k) {
      var i :| 0 <= i < |e| - 1 && e[1..][i].key == k;
      assert e[i + 1].key == k;
    }
  }

  /** `delete d[k]`. */
  function Delete<V>(d: seq<Entry<V>>, k: string): seq<Entry<V>>
  {
    if d == [] then []
    else if d[0].key == k then Delete(d[1..], k)
    else [d[0]] + Delete(d[1..], k)
  }

  /** Writing a key changes that key's value and no other, and keeps the
      dictionary free of duplicate keys. */
  lemma {:induction false} PutGet<V>(d: seq<Entry<V>>, k: string, v: V, k': string)
    ensures Get(Put(d, k, v), k') == if k' == k then Some(v) else Get(d, k')
  {
    if d != [] && d[0].key != k {
      PutGet(d[1..], k, v, k');
    }
  }

  lemma {:induction false} PutKeys<V>(d: seq<Entry<V>>, k: string, v: V)
    ensures Keys(Put(d, k, v)) == if HasKey(d, k) then Keys(d) else Keys(d) + [k]
  {
    if d != [] && d[0].key != k {
      PutKeys(d[1..], k, v);
      assert HasKey(d, k) <==> HasKey(d[1..], k);
    } else if d != [] {
      assert HasKey(d, k);
    }
  }

  lemma {:induction false} PutDistinct<V>(d: seq<Entry<V>>, k: string, v: V)
    requires DistinctKeys(d)
    ensures DistinctKeys(Put(d, k, v))
  {
    PutKeys(d, k, v);
    var r := Put(d, k, v);
    var ks := Keys(r);
    forall i, j | 0 <= i < j < |r| ensures r[i].key != r[j].key {
      if !HasKey(d, k) && j == |d| {
        assert ks[i] == d[i].key;
      } else {
        assert ks[i] == Keys(d)[i] && ks[j] == Keys(d)[j];
      }
    }
  }

  /** Later keys overwrite: after a merge every key of `e` has its value from
      `e`, and every other key keeps its value from `d`. */
  lemma {:induction false} MergeGet<V>(d: seq<Entry<V>>, e: seq<Entry<V>>, k: string)
    requires DistinctKeys(e)
    ensures Get(Merge(d, e), k) == if HasKey(e, k) then Get(e, k) else Get(d, k)
    decreases |e|
  {
    if e != [] {
      var d' := Put(d, e[0].key, e[0].value);
      assert DistinctKeys(e[1..]);
      MergeGet(d', e[1..], k);
      PutGet(d, e[0].key, e[0].value, k);
      assert HasKey(e, k) <==> e[0].key == k || HasKey(e[1..], k);
      if e[0].key == k {
        assert !HasKey(e[1..], k);
      } else if HasKey(e[1..], k) {
        assert Get(e, k) == Get(e[1..], k);
      }
    }
  }

  lemma {:induction false} MergeDistinct<V>(d: seq<Entry<V>>, e: seq<Entry<V>>)
    requires DistinctKeys(d)
    ensures DistinctKeys(Merge(d, e))
    decreases |e|
  {
    if e != [] {
      PutDistinct(d, e[0].key, e[0].value);
      MergeDistinct(Put(d, e[0].key, e[0].value), e[1..]);
    }
  }

  /** Deleting removes exactly that key. */
  lemma {:induction false} DeleteGet<V>(d: seq<Entry<V>>, k: string, k': string)
    ensures Get(Delete(d, k), k') == if k' == k then None else Get(d, k')
  {
    if d != [] {
      DeleteGet(d[1..], k, k');
    }
  }

  // ---------------------------------------------------------------------
  // Domain records
  // ---------------------------------------------------------------------

  /** A companion with its computed score and band, as the check-in flow
      stores it (`{ ...companion, score, level }`, of which only the id
      matters here). */
  datatype ScoredCompanion = ScoredCompanion(id: string, score: real, level: Level)

  datatype QuestStatus = Active | Completed

  /** An entry of `activeQuests`. Timestamps are milliseconds. */
  datatype Quest = Quest(
    id: string,
    companionId: string,
    text: string,
    icon: string,
    status: QuestStatus,
    addedAt: int,
    completedAt: Option<int>,
    isCustom: bool)

  /** A quest the user wrote on the quest screen. */
  datatype CustomQuest = CustomQuest(id: string, companionId: string, text: string, icon: string)

  /** A decoration planted in the garden when a quest is completed. The random
      position offsets are not part of the model. */
  datatype GardenElement = GardenElement(
    id: string,
    emoji: string,
    name: string,
    kind: string,
    companionId: string,
    questText: string,
    plantedAt: int)

  /** One entry of the completed-quest log. */
  datatype CompletedQuest = CompletedQuest(questId: string, companionId: string, completedAt: int)

  /** The payload a caller hands to a save-check-in operation. Every field may
      be absent; `date`, when present, overrides the timestamp the save
      operation would stamp. */
  datatype CheckInData = CheckInData(
    date: Option<int>,
    selectedQuests: Option<seq<string>>,
    companionScores: Option<seq<ScoredCompanion>>,
    activeQuests: Option<seq<Quest>>,
    healthType: Option<string>,
    reflection: Option<string>)

  /** A stored check-in: `{ id, date, ...data }` with dates in milliseconds. */
  datatype CheckInRecord = CheckInRecord(id: int, date: int, data: CheckInData)

  function StampCheckIn(data: CheckInData, now: int): (r: CheckInRecord)
    ensures r.id == now && r.data == data
    ensures data.date.Some? ==> r.date == data.date.value
    ensures data.date.None? ==> r.date == now
  {
    CheckInRecord(now, data.date.GetOr(now), data)
  }

  /** `xs.slice(-n)` for n > 0: the last `n` elements, or all of them. */
  function LastN<T>(xs: seq<T>, n: nat): (r: seq<T>)
    requires n > 0
    ensures |r| == if |xs| < n then |xs| else n
    ensures r == xs[|xs| - |r|..]
  {
    if |xs| <= n then xs else xs[|xs| - n..]
  }

  /** Capacity of every check-in log: a year of weekly check-ins. */
  const HistoryCap: nat := 52

  /** Appending to a capped log: the new entry is last, the length is
      min(old + 1, cap), and what is dropped is the oldest entries. */
  lemma AppendCapped<T>(xs: seq<T>, x: T)
    ensures var r := LastN(xs + [x], HistoryCap);
      && |r| == (if |xs| + 1 < HistoryCap then |xs| + 1 else HistoryCap)
      && r[|r| - 1] == x
      && r[..|r| - 1] == xs[|xs| + 1 - |r|..]
  {
    var r := LastN(xs + [x], HistoryCap);
    assert r[..|r| - 1] == (xs + [x])[|xs| + 1 - |r|..|xs|];
  }
}
