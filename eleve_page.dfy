/**
 * The student's home page: the progress record it builds from the backend's
 * progress rows (or from the demo record), each phoneme's status, the
 * mastered / in-progress / still-to-discover counters, the overall progress
 * and the encouragement line.
 */
module ElevePage {
  import opened Types
  import opened Text
  import DemoData

  /** Score per phoneme id, in percent. */
  type ProgressMap = map<int, real>

  datatype Status = Mastered | InProgress | NotStarted

  /** `progressData[id] || 0`. */
  function ScoreOf(progress: ProgressMap, id: int): real {
    if id in progress then progress[id] else 0.0
  }

  /** `getPhonemeStatus(id)`: 80 and above mastered, 50 and above in progress, anything else not started. */
  function StatusOf(progress: ProgressMap, id: int): (s: Status)
    ensures s == Mastered <==> ScoreOf(progress, id) >= 80.0
    ensures s == InProgress <==> 50.0 <= ScoreOf(progress, id) < 80.0
    ensures s == NotStarted <==> ScoreOf(progress, id) < 50.0
  {
    var score := ScoreOf(progress, id);
    if score >= 80.0 then Mastered else if score >= 50.0 then InProgress else NotStarted
  }

  /** A phoneme with no entry is not started. */
  lemma MissingIsNotStarted(progress: ProgressMap, id: int)
    requires id !in progress
    ensures StatusOf(progress, id) == NotStarted
  {
  }

  function MasteredIds(progress: ProgressMap): set<int> {
    set k | k in progress && progress[k] >= 80.0
  }

  function InProgressIds(progress: ProgressMap): set<int> {
    set k | k in progress && 0.0 < progress[k] < 80.0
  }

  /** `masteredCount`: the entries scoring 80 or more. */
  function MasteredCount(progress: ProgressMap): (c: nat)
    ensures c == |MasteredIds(progress)|
  {
    |MasteredIds(progress)|
  }

  /** `inProgressCount`: the entries scoring strictly between 0 and 80. */
  function InProgressCount(progress: ProgressMap): (c: nat)
    ensures c == |InProgressIds(progress)|
  {
    |InProgressIds(progress)|
  }

  lemma SubsetCard(a: set<int>, b: set<int>)
    requires a <= b
    ensures |a| <= |b|
  {
    assert b == a + (b - a);
    assert a * (b - a) == {};
  }

  /** The two counters count disjoint sets of entries, so together they never exceed the entries. */
  lemma CountersBounded(progress: ProgressMap)
    ensures MasteredIds(progress) * InProgressIds(progress) == {}
    ensures MasteredCount(progress) + InProgressCount(progress) <= |progress.Keys|
  {
    var m := MasteredIds(progress);
    var p := InProgressIds(progress);
    assert |m + p| == |m| + |p|;
    SubsetCard(m + p, progress.Keys);
  }

  /**
   * The counters and the status disagree below 50: an entry of 30 is counted
   * in progress while its phoneme is shown as not started.
   */
  lemma LowScoreCountedButNotStarted(progress: ProgressMap, id: int)
    requires id in progress && 0.0 < progress[id] < 50.0
    ensures id in InProgressIds(progress)
    ensures StatusOf(progress, id) == NotStarted
  {
  }

  /** `totalProgress`: the mastered share of the phonemes, in percent; 0 with no phonemes. */
  function TotalProgress(mastered: nat, phonemeCount: nat): (t: real)
    ensures phonemeCount == 0 ==> t == 0.0
    ensures mastered <= phonemeCount ==> 0.0 <= t <= 100.0
    ensures phonemeCount > 0 ==> (t == 100.0 <==> mastered == phonemeCount)
  {
    if phonemeCount > 0 then mastered as real / phonemeCount as real * 100.0 else 0.0
  }

  /** The "to discover" counter: phonemes minus entries (negative when entries name unknown phonemes). */
  function Remaining(phonemeCount: nat, progress: ProgressMap): int {
    phonemeCount - |progress.Keys|
  }

  /** When every entry names one of the listed phonemes, the counter is not negative. */
  lemma RemainingNonNegative(ids: set<int>, progress: ProgressMap)
    requires progress.Keys <= ids
    ensures Remaining(|ids|, progress) >= 0
  {
    SubsetCard(progress.Keys, ids);
  }

  datatype Encouragement = AllMastered | GoodProgress | JustStarted

  /** The line under the counters: exactly 100, then 50 and above, then the rest. */
  function EncouragementFor(total: real): (e: Encouragement)
    ensures e == AllMastered <==> total == 100.0
    ensures e == GoodProgress <==> total != 100.0 && total >= 50.0
    ensures e == JustStarted <==> total < 50.0
  {
    if total == 100.0 then AllMastered else if total >= 50.0 then GoodProgress else JustStarted
  }

  function EncouragementText(e: Encouragement): string {
    match e
    case AllMastered => "🎉 Bravo champion ! Tu as maîtrisé tous les sons ! 🎉"
    case GoodProgress => "🌟 Excellent travail ! Tu progresses super bien ! 🌟"
    case JustStarted => "🚀 C'est parti pour l'aventure des sons ! 🚀"
  }

  // ---------------------------------------------------------------- building the record

  /** One row of the progress query: `phoneme_id` and `meilleur_score` (a fraction, or null). */
  datatype BestRow = BestRow(phonemeId: int, meilleurScore: Option<real>)

  predicate Truthy(x: Option<real>) {
    x.Some? && x.value != 0.0
  }

  /** The record the backend path builds: each row with a truthy best, scaled to percent, the later row winning. */
  function FromRows(rows: seq<BestRow>): ProgressMap {
    if rows == [] then map[]
    else
      var m := FromRows(rows[..|rows| - 1]);
      var r := rows[|rows| - 1];
      if Truthy(r.meilleurScore) then m[r.phonemeId := r.meilleurScore.value * 100.0] else m
  }

  /** Some row of `id` has a truthy best, the record holds 100 times it, and no later row of `id` has one. */
  predicate LastTruthy(rows: seq<BestRow>, id: int)
    requires id in FromRows(rows)
  {
    exists i :: 0 <= i < |rows| && rows[i].phonemeId == id && Truthy(rows[i].meilleurScore)
      && FromRows(rows)[id] == rows[i].meilleurScore.value * 100.0
      && (forall j :: i < j < |rows| ==> !(rows[j].phonemeId == id && Truthy(rows[j].meilleurScore)))
  }

  /** The `forEach` over the reply rows. */
  method BuildFromRows(rows: seq<BestRow>) returns (progress: ProgressMap)
    ensures progress == FromRows(rows)
  {
    progress := map[];
    for i := 0 to |rows|
      invariant progress == FromRows(rows[..i])
    {
      var r := rows[i];
      if r.meilleurScore.Some? && r.meilleurScore.value != 0.0 {
        progress := progress[r.phonemeId := r.meilleurScore.value * 100.0];
      }
      assert rows[..i + 1][..i] == rows[..i];
    }
    assert rows[..|rows|] == rows;
  }

  /**
   * An id is in the record iff some row of it has a truthy best, and its
   * value is 100 times the best of the last such row (one row per screen, so
   * the last screen's row decides).
   */
  lemma {:induction false} FromRowsLastWins(rows: seq<BestRow>, id: int)
    ensures id in FromRows(rows) <==> exists i :: 0 <= i < |rows| && rows[i].phonemeId == id && Truthy(rows[i].meilleurScore)
    ensures id in FromRows(rows) ==> LastTruthy(rows, id)
  {
    FromRowsMembers(rows, id);
    if id in FromRows(rows) {
      var i := FromRowsLast(rows, id);
    }
  }

  lemma {:induction false} FromRowsMembers(rows: seq<BestRow>, id: int)
    ensures id in FromRows(rows) <==> exists i :: 0 <= i < |rows| && rows[i].phonemeId == id && Truthy(rows[i].meilleurScore)
  {
    if rows != [] {
      var init := rows[..|rows| - 1];
      FromRowsMembers(init, id);
      if exists i :: 0 <= i < |rows| && rows[i].phonemeId == id && Truthy(rows[i].meilleurScore) {
        var i :| 0 <= i < |rows| && rows[i].phonemeId == id && Truthy(rows[i].meilleurScore);
        if i < |init| {
          assert init[i] == rows[i];
        }
      }
      if id in FromRows(init) {
        var i :| 0 <= i < |init| && init[i].phonemeId == id && Truthy(init[i].meilleurScore);
        assert rows[i] == init[i];
      }
    }
  }

  /** The row that decides `id`'s value: the last one of `id` with a truthy best. */
  lemma {:induction false} FromRowsLast(rows: seq<BestRow>, id: int) returns (i: nat)
    requires id in FromRows(rows)
    ensures i < |rows| && rows[i].phonemeId == id && Truthy(rows[i].meilleurScore)
    ensures FromRows(rows)[id] == rows[i].meilleurScore.value * 100.0
    ensures forall j :: i < j < |rows| ==> !(rows[j].phonemeId == id && Truthy(rows[j].meilleurScore))
  {
    var init := rows[..|rows| - 1];
    var last := |rows| - 1;
    if rows[last].phonemeId == id && Truthy(rows[last].meilleurScore) {
      i := last;
    } else {
      i := FromRowsLast(init, id);
      assert rows[i] == init[i];
      forall j | i < j < |rows|
        ensures !(rows[j].phonemeId == id && Truthy(rows[j].meilleurScore))
      {
        if j < last {
          assert rows[j] == init[j];
        }
      }
    }
  }

  /** `parseInt` of an entry's key, which `Object.entries` hands over as the key's decimal string. */
  method EntryKey(k: int) returns (r: int)
    ensures r == k
  {
    DemoData.ParseIntIntToString(k);
    r := ParseInt(DemoData.IntToString(k)).value;
  }

  /**
   * The demo path: `progress[parseInt(key)] = score` for every entry of the
   * demo record, visited in the order of `keys`, which lists the record's keys
   * as `Object.entries` yields them. A printed key parses back to itself, so
   * the copy is the record.
   */
  method CopyDemo(rec: map<int, real>, keys: seq<int>) returns (progress: ProgressMap)
    requires forall j :: 0 <= j < |keys| ==> keys[j] in rec
    requires forall k :: k in rec ==> k in keys
    ensures progress.Keys == rec.Keys
    ensures forall k :: k in progress ==> progress[k] == rec[k]
  {
    progress := map[];
    for i := 0 to |keys|
      invariant progress.Keys <= rec.Keys
      invariant forall j :: 0 <= j < i ==> keys[j] in progress
      invariant forall k :: k in progress ==> progress[k] == rec[k]
    {
      var k := keys[i];
      var key := EntryKey(k);
      progress := progress[key := rec[k]];
    }
    Covered(progress, rec, keys);
  }

  /** Every key listed is in `m`, and the list names all the record's keys, so `m` has them all. */
  lemma Covered(m: ProgressMap, rec: map<int, real>, keys: seq<int>)
    requires forall k :: k in rec ==> k in keys
    requires forall j :: 0 <= j < |keys| ==> keys[j] in m
    ensures rec.Keys <= m.Keys
  {
    forall k | k in rec ensures k in m {
      var j :| 0 <= j < |keys| && keys[j] == k;
    }
  }

  /**
   * `loadProgress` for a signed-in student: the progress query's reply, or on
   * failure the mock backend's record (`demo` is its reply data, `keys` the
   * record's keys in entry order).
   */
  method LoadProgress(reply: Reply<seq<BestRow>>, demo: Option<map<int, real>>, keys: seq<int>)
    returns (progress: ProgressMap)
    requires forall j :: 0 <= j < |keys| ==> keys[j] in demo.GetOr(map[])
    requires forall k :: k in demo.GetOr(map[]) ==> k in keys
    ensures reply.Data? ==> progress == FromRows(reply.data.GetOr([]))
    ensures reply.Failure? ==> progress.Keys == demo.GetOr(map[]).Keys
    ensures reply.Failure? ==> forall k :: k in progress ==> progress[k] == demo.GetOr(map[])[k]
  {
    match reply {
      case Failure =>
        progress := CopyDemo(demo.GetOr(map[]), keys);
      case Data(d) =>
        progress := BuildFromRows(d.GetOr([]));
    }
  }

  /** `loadPhonemes`: the query's rows (`data || []`), or on failure the demo list. */
  function LoadPhonemes(reply: Reply<seq<Phoneme>>): (ps: seq<Phoneme>)
    ensures reply.Failure? ==> ps == DemoData.DemoPhonemes
    ensures reply == Data(None) ==> ps == []
    ensures reply.Data? && reply.data.Some? ==> ps == reply.data.value
  {
    match reply
    case Failure => DemoData.DemoPhonemes
    case Data(d) => d.GetOr([])
  }

  /**
   * On the demo record the page shows one mastered phoneme, one in progress,
   * nothing left to discover and 20 percent overall.
   */
  lemma DemoRecordCounters()
    ensures MasteredIds(DemoData.InitialProgress) == {1}
    ensures InProgressIds(DemoData.InitialProgress) == {2}
    ensures Remaining(|DemoData.DemoPhonemes|, DemoData.InitialProgress) == 0
    ensures TotalProgress(1, |DemoData.DemoPhonemes|) == 20.0
  {
    var m := DemoData.InitialProgress;
    assert m.Keys == {1, 2, 3, 4, 5};
    forall k | k in MasteredIds(m) ensures k == 1 { }
    forall k | k in InProgressIds(m) ensures k == 2 { }
    assert 1 in MasteredIds(m) && 2 in InProgressIds(m);
  }
}
