/**
 * The student-data hooks: the progress query, the progress upsert with its
 * merge rule (attempt counter, accumulated time, best score, first-mastery
 * timestamp), the learning-session record and the interaction log. The hosted
 * table is a class holding its rows; a write the backend refuses is an
 * `Option<string>` error supplied by the caller.
 */
module StudentData {
  import opened Types

  const AuthRequired := "Authentification requise"

  /** JavaScript truthiness of a nullable number: present and non-zero. */
  predicate TruthyNumber(x: Option<real>) {
    x.Some? && x.value != 0.0
  }

  /** JavaScript truthiness of a nullable string: present and non-empty. */
  predicate TruthyString(x: Option<string>) {
    x.Some? && x.value != ""
  }

  /** The guard at the top of every hook: with no client or no signed-in user the call fails. */
  function Guard(hasClient: bool, user: Option<string>): (r: Result<string>)
    ensures r.Err? <==> !hasClient || user.None?
    ensures r.Err? ==> r.message == AuthRequired
    ensures r.Ok? ==> r.value == user.value
  {
    if !hasClient || user.None? then Err(AuthRequired) else Ok(user.value)
  }

  // ---------------------------------------------------------------- the merge

  /** The arguments of one progress save; `maitrise` is None when the caller leaves it out. */
  datatype ProgressInput = ProgressInput(
    phonemeId: int, ecranNumero: int, scoreActuel: real, tempsTotal: real, maitrise: Option<bool>)

  /**
   * The record written by a progress save. `maitriseAtteinte` and
   * `meilleurScore` are None when the key is left out of the record, so the
   * stored value survives an update.
   */
  datatype ProgressPatch = ProgressPatch(
    eleveId: string, phonemeId: int, ecranNumero: int, scoreActuel: real, tempsTotal: real,
    tentatives: int, maitrise: bool, derniereTentative: string,
    maitriseAtteinte: Option<string>, meilleurScore: Option<real>)

  /** The tentatives/temps_total of the existing row, 0 when there is none or it is 0. */
  function PrevAttempts(existing: Option<ProgressRow>): int {
    if existing.Some? then existing.value.tentatives else 0
  }

  function PrevTime(existing: Option<ProgressRow>): real {
    if existing.Some? then existing.value.tempsTotal else 0.0
  }

  /** The `progressData` record built from the existing row (if any) at instant `now`. */
  function Patch(userId: string, input: ProgressInput, existing: Option<ProgressRow>, now: string): (p: ProgressPatch)
    ensures p.tentatives == PrevAttempts(existing) + 1
    ensures p.tempsTotal == PrevTime(existing) + input.tempsTotal
    ensures p.scoreActuel == input.scoreActuel && p.derniereTentative == now
    ensures p.maitrise <==> input.maitrise == Some(true)
    ensures p.maitriseAtteinte.Some? <==>
      input.maitrise == Some(true) && !(existing.Some? && TruthyString(existing.value.maitriseAtteinte))
    ensures p.maitriseAtteinte.Some? ==> p.maitriseAtteinte.value == now
    ensures p.meilleurScore.Some? <==>
      !(existing.Some? && TruthyNumber(existing.value.meilleurScore))
      || input.scoreActuel > existing.value.meilleurScore.value
    ensures p.meilleurScore.Some? ==> p.meilleurScore.value == input.scoreActuel
    ensures p.eleveId == userId && p.phonemeId == input.phonemeId && p.ecranNumero == input.ecranNumero
  {
    var maitrise := input.maitrise.GetOr(false);
    var firstMastery := maitrise && !(existing.Some? && TruthyString(existing.value.maitriseAtteinte));
    var newBest := !(existing.Some? && TruthyNumber(existing.value.meilleurScore))
                   || input.scoreActuel > existing.value.meilleurScore.value;
    ProgressPatch(userId, input.phonemeId, input.ecranNumero, input.scoreActuel,
      (if existing.Some? then existing.value.tempsTotal else 0.0) + input.tempsTotal,
      (if existing.Some? then existing.value.tentatives else 0) + 1,
      maitrise, now,
      if firstMastery then Some(now) else None,
      if newBest then Some(input.scoreActuel) else None)
  }

  /** `update(progressData)` on an existing row: the keys the patch leaves out keep their values. */
  function Updated(row: ProgressRow, p: ProgressPatch): (r: ProgressRow)
    ensures r.id == row.id && r.createdAt == row.createdAt
    ensures p.maitriseAtteinte.None? ==> r.maitriseAtteinte == row.maitriseAtteinte
    ensures p.meilleurScore.None? ==> r.meilleurScore == row.meilleurScore
    ensures p.meilleurScore.Some? ==> r.meilleurScore == p.meilleurScore
    ensures r.tentatives == p.tentatives && r.tempsTotal == p.tempsTotal && r.scoreActuel == Some(p.scoreActuel)
  {
    row.(eleveId := p.eleveId, phonemeId := p.phonemeId, ecranNumero := p.ecranNumero,
         scoreActuel := Some(p.scoreActuel), tempsTotal := p.tempsTotal, tentatives := p.tentatives,
         maitrise := p.maitrise, derniereTentative := Some(p.derniereTentative),
         maitriseAtteinte := if p.maitriseAtteinte.Some? then p.maitriseAtteinte else row.maitriseAtteinte,
         meilleurScore := if p.meilleurScore.Some? then p.meilleurScore else row.meilleurScore)
  }

  /** `insert(progressData)`: the columns the patch leaves out are null. */
  function Inserted(id: string, createdAt: int, p: ProgressPatch): (r: ProgressRow)
    ensures r.id == id && r.createdAt == createdAt
    ensures r.meilleurScore == p.meilleurScore && r.maitriseAtteinte == p.maitriseAtteinte
    ensures r.tentatives == p.tentatives && r.tempsTotal == p.tempsTotal && r.scoreActuel == Some(p.scoreActuel)
  {
    ProgressRow(id, p.eleveId, p.phonemeId, p.ecranNumero, p.tentatives, p.meilleurScore,
      Some(p.scoreActuel), p.tempsTotal, p.maitrise, Some(p.derniereTentative), p.maitriseAtteinte, createdAt)
  }

  /** The row a save leaves behind: the existing one updated, or a new one. */
  function Saved(userId: string, input: ProgressInput, existing: Option<ProgressRow>, now: string,
                 id: string, createdAt: int): (r: ProgressRow)
    ensures HasKey(r, userId, input.phonemeId, input.ecranNumero)
    ensures existing.Some? ==> r.id == existing.value.id && r.createdAt == existing.value.createdAt
    ensures existing.None? ==> r.id == id && r.createdAt == createdAt
    ensures r.tentatives == PrevAttempts(existing) + 1
    ensures r.tempsTotal == PrevTime(existing) + input.tempsTotal
  {
    var p := Patch(userId, input, existing, now);
    if existing.Some? then Updated(existing.value, p) else Inserted(id, createdAt, p)
  }

  function Max(a: real, b: real): real {
    if a < b then b else a
  }

  /**
   * For non-negative scores the stored best is the maximum of the old best
   * (0 when absent) and the new score.
   */
  lemma BestIsMaximum(userId: string, input: ProgressInput, existing: Option<ProgressRow>, now: string,
                      id: string, createdAt: int)
    requires input.scoreActuel >= 0.0
    requires existing.Some? && existing.value.meilleurScore.Some? ==> existing.value.meilleurScore.value >= 0.0
    ensures var old_best := if existing.Some? then existing.value.meilleurScore.GetOr(0.0) else 0.0;
      Saved(userId, input, existing, now, id, createdAt).meilleurScore == Some(Max(old_best, input.scoreActuel))
  {
  }

  /** Once a first-mastery timestamp is stored, no later save replaces it. */
  lemma MasteryTimestampKept(userId: string, input: ProgressInput, row: ProgressRow, now: string,
                             id: string, createdAt: int)
    requires TruthyString(row.maitriseAtteinte)
    ensures Saved(userId, input, Some(row), now, id, createdAt).maitriseAtteinte == row.maitriseAtteinte
  {
  }

  /** A save with mastery on a row without a timestamp stamps it with the save's instant. */
  lemma MasteryTimestampSet(userId: string, input: ProgressInput, existing: Option<ProgressRow>, now: string,
                            id: string, createdAt: int)
    requires input.maitrise == Some(true)
    requires existing.None? || existing.value.maitriseAtteinte.None?
    ensures Saved(userId, input, existing, now, id, createdAt).maitriseAtteinte == Some(now)
  {
  }

  // ---------------------------------------------------------------- the table

  /** The (student, phoneme, screen) a row belongs to. */
  predicate HasKey(r: ProgressRow, u: string, ph: int, ec: int) {
    r.eleveId == u && r.phonemeId == ph && r.ecranNumero == ec
  }

  /** The indices of the rows of (u, ph, ec), in increasing order. */
  function Matches(rows: seq<ProgressRow>, u: string, ph: int, ec: int): (m: seq<nat>)
    ensures forall k :: 0 <= k < |m| ==> m[k] < |rows| && HasKey(rows[m[k]], u, ph, ec)
    ensures forall i :: 0 <= i < |rows| && HasKey(rows[i], u, ph, ec) ==> i in m
    ensures forall k, l :: 0 <= k < l < |m| ==> m[k] < m[l]
  {
    if rows == [] then []
    else
      var last := |rows| - 1;
      var m := Matches(rows[..last], u, ph, ec);
      assert forall i :: 0 <= i < last ==> rows[..last][i] == rows[i];
      if HasKey(rows[last], u, ph, ec) then m + [last] else m
  }

  /** `.single()`: the row when exactly one matches, none when zero or several do. */
  function Single(rows: seq<ProgressRow>, u: string, ph: int, ec: int): (r: Option<nat>)
    ensures r.Some? ==> r.value < |rows| && HasKey(rows[r.value], u, ph, ec)
    ensures r.Some? ==> forall i :: 0 <= i < |rows| && i != r.value ==> !HasKey(rows[i], u, ph, ec)
  {
    var m := Matches(rows, u, ph, ec);
    if |m| == 1 then Some(m[0]) else None
  }

  /** At most one row per (student, phoneme, screen). */
  predicate KeysUnique(rows: seq<ProgressRow>) {
    forall i, j :: 0 <= i < j < |rows| ==>
      !HasKey(rows[j], rows[i].eleveId, rows[i].phonemeId, rows[i].ecranNumero)
  }

  predicate IdsUnique(rows: seq<ProgressRow>) {
    forall i, j :: 0 <= i < j < |rows| ==> rows[i].id != rows[j].id
  }

  lemma {:induction false} NoKeyNoMatch(rows: seq<ProgressRow>, u: string, ph: int, ec: int)
    requires forall i :: 0 <= i < |rows| ==> !HasKey(rows[i], u, ph, ec)
    ensures Matches(rows, u, ph, ec) == []
  {
    if rows != [] {
      NoKeyNoMatch(rows[..|rows| - 1], u, ph, ec);
    }
  }

  /** With unique keys, at most one row matches a key. */
  lemma {:induction false} MatchesAtMostOne(rows: seq<ProgressRow>, u: string, ph: int, ec: int)
    requires KeysUnique(rows)
    ensures |Matches(rows, u, ph, ec)| <= 1
  {
    if rows != [] {
      var last := |rows| - 1;
      var prefix := rows[..last];
      assert KeysUnique(prefix);
      MatchesAtMostOne(prefix, u, ph, ec);
      if HasKey(rows[last], u, ph, ec) {
        forall i | 0 <= i < last ensures !HasKey(prefix[i], u, ph, ec) {
          assert !HasKey(rows[last], rows[i].eleveId, rows[i].phonemeId, rows[i].ecranNumero);
        }
        NoKeyNoMatch(prefix, u, ph, ec);
      }
    }
  }

  /** With unique keys, `.single()` finds the row exactly when one exists. */
  lemma SingleFindsUnique(rows: seq<ProgressRow>, u: string, ph: int, ec: int)
    requires KeysUnique(rows)
    ensures Single(rows, u, ph, ec).None? <==> forall i :: 0 <= i < |rows| ==> !HasKey(rows[i], u, ph, ec)
  {
    MatchesAtMostOne(rows, u, ph, ec);
  }

  /**
   * What `const { data: existing } = ... .single()` yields: the lookup's error
   * is discarded, so a failed lookup (a network error, a refused read) reads
   * as "no row", like zero or several matches.
   */
  function Existing(rows: seq<ProgressRow>, u: string, ph: int, ec: int, lookupFailed: bool): (r: Option<nat>)
    ensures r.Some? <==> !lookupFailed && Single(rows, u, ph, ec).Some?
    ensures r.Some? ==> r == Single(rows, u, ph, ec)
  {
    if lookupFailed then None else Single(rows, u, ph, ec)
  }

  /** The rows after a save: the row the lookup found updated in place, or the new row appended. */
  function Upserted(rows: seq<ProgressRow>, userId: string, input: ProgressInput, now: string,
                    id: string, createdAt: int, lookupFailed: bool): (r: seq<ProgressRow>)
    ensures Existing(rows, userId, input.phonemeId, input.ecranNumero, lookupFailed).Some? ==> |r| == |rows|
    ensures Existing(rows, userId, input.phonemeId, input.ecranNumero, lookupFailed).None? ==> |r| == |rows| + 1
  {
    match Existing(rows, userId, input.phonemeId, input.ecranNumero, lookupFailed)
    case Some(i) => rows[i := Saved(userId, input, Some(rows[i]), now, id, createdAt)]
    case None => rows + [Saved(userId, input, None, now, id, createdAt)]
  }

  /**
   * A lookup that fails while the key is already stored makes the save insert
   * a second row for that key: the table no longer has one row per key.
   */
  lemma FailedLookupDuplicatesKey(rows: seq<ProgressRow>, userId: string, input: ProgressInput, now: string,
                                  id: string, createdAt: int, i: nat)
    requires i < |rows| && HasKey(rows[i], userId, input.phonemeId, input.ecranNumero)
    ensures var r := Upserted(rows, userId, input, now, id, createdAt, true);
      && |r| == |rows| + 1 && r[i] == rows[i]
      && HasKey(r[|rows|], userId, input.phonemeId, input.ecranNumero)
      && !KeysUnique(r)
  {
    var r := Upserted(rows, userId, input, now, id, createdAt, true);
    assert r[i] == rows[i];
    assert !HasKey(r[|rows|], r[i].eleveId, r[i].phonemeId, r[i].ecranNumero) ==> false;
  }

  /**
   * A save on a table with unique keys and ids (the new id being fresh) keeps
   * both unique, leaves every other key's rows alone, and leaves exactly one
   * row for the saved key, carrying the merged values.
   */
  lemma UpsertKeepsOneRowPerKey(rows: seq<ProgressRow>, userId: string, input: ProgressInput, now: string,
                                id: string, createdAt: int)
    requires KeysUnique(rows) && IdsUnique(rows)
    requires forall i :: 0 <= i < |rows| ==> rows[i].id != id
    ensures var r := Upserted(rows, userId, input, now, id, createdAt, false);
      && KeysUnique(r) && IdsUnique(r)
      && Single(r, userId, input.phonemeId, input.ecranNumero).Some?
      && var k := Single(r, userId, input.phonemeId, input.ecranNumero).value;
         var e := Single(rows, userId, input.phonemeId, input.ecranNumero);
         r[k] == Saved(userId, input, if e.Some? then Some(rows[e.value]) else None, now, id, createdAt)
  {
    var u, ph, ec := userId, input.phonemeId, input.ecranNumero;
    var r := Upserted(rows, userId, input, now, id, createdAt, false);
    SingleFindsUnique(rows, u, ph, ec);
    var e := Single(rows, u, ph, ec);
    var k := if e.Some? then e.value else |rows|;
    assert HasKey(r[k], u, ph, ec);
    assert forall i :: 0 <= i < |r| && i != k ==> r[i] == rows[i];
    assert forall i :: 0 <= i < |r| && i != k ==> !HasKey(r[i], u, ph, ec);
    assert KeysUnique(r);
    assert IdsUnique(r);
    MatchesAtMostOne(r, u, ph, ec);
    assert k in Matches(r, u, ph, ec);
  }

  // ---------------------------------------------------------------- the query

  predicate SortedDesc(rows: seq<ProgressRow>) {
    forall i, j :: 0 <= i < j < |rows| ==> rows[i].createdAt >= rows[j].createdAt
  }

  function InsertDesc(r: ProgressRow, rows: seq<ProgressRow>): (s: seq<ProgressRow>)
    requires SortedDesc(rows)
    ensures SortedDesc(s)
    ensures |s| > 0 && (s[0] == r || (rows != [] && s[0] == rows[0]))
  {
    if rows == [] then [r]
    else if r.createdAt >= rows[0].createdAt then
      SortedCons(r, rows);
      [r] + rows
    else
      var t := InsertDesc(r, rows[1..]);
      assert rows == [rows[0]] + rows[1..];
      SortedCons(rows[0], t);
      [rows[0]] + t
  }

  /** Inserting adds exactly the one row. */
  lemma {:induction false} InsertDescPerm(r: ProgressRow, rows: seq<ProgressRow>)
    requires SortedDesc(rows)
    ensures multiset(InsertDesc(r, rows)) == multiset(rows) + multiset{r}
  {
    if rows != [] && r.createdAt < rows[0].createdAt {
      InsertDescPerm(r, rows[1..]);
      assert rows == [rows[0]] + rows[1..];
    }
  }

  /** A row no older than the head of a newest-first list can go in front of it. */
  lemma SortedCons(x: ProgressRow, t: seq<ProgressRow>)
    requires SortedDesc(t) && (t == [] || x.createdAt >= t[0].createdAt)
    ensures SortedDesc([x] + t)
  {
    var s := [x] + t;
    forall i, j | 0 <= i < j < |s| ensures s[i].createdAt >= s[j].createdAt {
      if i == 0 && j > 1 {
        assert s[1] == t[0] && s[j] == t[j - 1];
      }
    }
  }

  /** `order('created_at', { ascending: false })`: newest first, a permutation of the input. */
  function OrderNewestFirst(rows: seq<ProgressRow>): (s: seq<ProgressRow>)
    ensures SortedDesc(s)
    ensures multiset(s) == multiset(rows)
  {
    if rows == [] then []
    else
      assert rows == [rows[0]] + rows[1..];
      InsertDescPerm(rows[0], OrderNewestFirst(rows[1..]));
      InsertDesc(rows[0], OrderNewestFirst(rows[1..]))
  }

  /** The query's filters: the student's row, and the phoneme's only when `phonemeId` is truthy. */
  predicate Picked(r: ProgressRow, userId: string, phonemeId: Option<int>) {
    r.eleveId == userId && (phonemeId.Some? && phonemeId.value != 0 ==> r.phonemeId == phonemeId.value)
  }

  /** The rows the query selects, each as often as it is stored, in table order. */
  function Selected(rows: seq<ProgressRow>, userId: string, phonemeId: Option<int>): (s: seq<ProgressRow>)
    ensures forall r :: r in s <==> r in rows && Picked(r, userId, phonemeId)
    ensures |rows| == 1 ==> s == if Picked(rows[0], userId, phonemeId) then rows else []
  {
    if rows == [] then []
    else
      var rest := Selected(rows[1..], userId, phonemeId);
      var r := rows[0];
      assert rows == [r] + rows[1..];
      assert forall x :: x in rows <==> x == r || x in rows[1..];
      if Picked(r, userId, phonemeId) then [r] + rest else rest
  }

  /** The filter works row by row, keeping the table's order. */
  lemma {:induction false} SelectedConcat(a: seq<ProgressRow>, b: seq<ProgressRow>, userId: string, phonemeId: Option<int>)
    ensures Selected(a + b, userId, phonemeId) == Selected(a, userId, phonemeId) + Selected(b, userId, phonemeId)
  {
    if a != [] {
      assert (a + b)[0] == a[0] && (a + b)[1..] == a[1..] + b;
      SelectedConcat(a[1..], b, userId, phonemeId);
    } else {
      assert a + b == b;
    }
  }

  /** Each selected row appears exactly as often as it is stored, and an unselected one not at all. */
  lemma {:induction false} SelectedCounts(rows: seq<ProgressRow>, userId: string, phonemeId: Option<int>)
    ensures forall r ::
      multiset(Selected(rows, userId, phonemeId))[r] == (if Picked(r, userId, phonemeId) then multiset(rows)[r] else 0)
  {
    if rows != [] {
      SelectedCounts(rows[1..], userId, phonemeId);
      assert rows == [rows[0]] + rows[1..];
    }
  }

  /** `useStudentProgress(phonemeId)`: None stands for `undefined` (and NaN, which is falsy too). */
  function StudentProgress(hasClient: bool, user: Option<string>, phonemeId: Option<int>,
                           rows: seq<ProgressRow>, queryError: Option<string>): (r: Result<seq<ProgressRow>>)
    ensures !hasClient || user.None? ==> r == Err(AuthRequired)
    ensures hasClient && user.Some? && queryError.Some? ==> r == Err(queryError.value)
    ensures r.Ok? ==> SortedDesc(r.value)
    ensures r.Ok? ==> forall x :: multiset(r.value)[x] == if Picked(x, user.value, phonemeId) then multiset(rows)[x] else 0
  {
    match Guard(hasClient, user)
    case Err(msg) => Err(msg)
    case Ok(u) =>
      if queryError.Some? then Err(queryError.value)
      else
        SelectedCounts(rows, u, phonemeId);
        Ok(OrderNewestFirst(Selected(rows, u, phonemeId)))
  }

  /** A phoneme id of 0 (falsy) selects every phoneme, as no id does. */
  lemma {:induction false} ZeroIdSelectsAll(rows: seq<ProgressRow>, userId: string)
    ensures Selected(rows, userId, Some(0)) == Selected(rows, userId, None)
  {
    if rows != [] {
      ZeroIdSelectsAll(rows[1..], userId);
    }
  }

  // ---------------------------------------------------------------- sessions and interactions

  datatype SessionRow = SessionRow(
    eleveId: string, phonemeId: int, ecransCompletes: seq<int>,
    scoreGlobal: Option<real>, dureeTotale: Option<real>, finSession: string)

  /** A row of the interaction log; `donneesInteraction` is the free-form payload, as the JSON text stored. */
  datatype InteractionRow = InteractionRow(
    eleveId: string, sessionId: Option<string>, phonemeId: int, ecranNumero: int, typeInteraction: string,
    donneesInteraction: string)

  /** `sessionId || null`: an empty id is stored as null. */
  function SessionRef(sessionId: Option<string>): (r: Option<string>)
    ensures r.Some? <==> TruthyString(sessionId)
    ensures r.Some? ==> r == sessionId
  {
    if TruthyString(sessionId) then sessionId else None
  }

  /** The hosted tables the hooks write to. */
  class Backend {
    var progress: seq<ProgressRow>
    var sessions: seq<SessionRow>
    var interactions: seq<InteractionRow>

    predicate Valid()
      reads this
    {
      KeysUnique(progress) && IdsUnique(progress)
    }

    constructor ()
      ensures Valid() && progress == [] && sessions == [] && interactions == []
    {
      progress := [];
      sessions := [];
      interactions := [];
    }

    /**
     * `useUpdateProgress`: look up the row with `.single()`, then update it by
     * id or insert a new one. `lookupFailed` says the lookup itself failed (its
     * error is discarded); `writeError` is the backend's refusal of the write,
     * if any; `id` and `createdAt` are what the database assigns to a new row.
     */
    method UpdateProgress(hasClient: bool, user: Option<string>, input: ProgressInput, now: string,
                          lookupFailed: bool, writeError: Option<string>, id: string, createdAt: int)
      returns (r: Result<ProgressRow>)
      requires forall i :: 0 <= i < |progress| ==> progress[i].id != id
      modifies this
      ensures sessions == old(sessions) && interactions == old(interactions)
      ensures !hasClient || user.None? ==> r == Err(AuthRequired) && progress == old(progress)
      ensures hasClient && user.Some? && writeError.Some? ==>
        r == Err(writeError.value) && progress == old(progress)
      ensures hasClient && user.Some? && writeError.None? ==>
        progress == Upserted(old(progress), user.value, input, now, id, createdAt, lookupFailed)
        && var e := Existing(old(progress), user.value, input.phonemeId, input.ecranNumero, lookupFailed);
           r == Ok(Saved(user.value, input, if e.Some? then Some(old(progress)[e.value]) else None, now, id, createdAt))
      ensures old(Valid()) && !lookupFailed ==> Valid()
    {
      match Guard(hasClient, user) {
        case Err(msg) =>
          r := Err(msg);
        case Ok(u) =>
          if writeError.Some? {
            r := Err(writeError.value);
          } else {
            var e := Existing(progress, u, input.phonemeId, input.ecranNumero, lookupFailed);
            if Valid() && !lookupFailed {
              UpsertKeepsOneRowPerKey(progress, u, input, now, id, createdAt);
            }
            r := Ok(Saved(u, input, if e.Some? then Some(progress[e.value]) else None, now, id, createdAt));
            progress := Upserted(progress, u, input, now, id, createdAt, lookupFailed);
          }
      }
    }

    /** `useCreateSession`: one session row, `ecransCompletes` defaulting to the empty list. */
    method CreateSession(hasClient: bool, user: Option<string>, phonemeId: int, ecransCompletes: Option<seq<int>>,
                         scoreGlobal: Option<real>, dureeTotale: Option<real>, now: string,
                         writeError: Option<string>)
      returns (r: Result<SessionRow>)
      modifies this
      ensures progress == old(progress) && interactions == old(interactions)
      ensures !hasClient || user.None? ==> r == Err(AuthRequired) && sessions == old(sessions)
      ensures hasClient && user.Some? && writeError.Some? ==> r == Err(writeError.value) && sessions == old(sessions)
      ensures hasClient && user.Some? && writeError.None? ==>
        r == Ok(SessionRow(user.value, phonemeId, ecransCompletes.GetOr([]), scoreGlobal, dureeTotale, now))
        && sessions == old(sessions) + [r.value]
    {
      match Guard(hasClient, user) {
        case Err(msg) =>
          r := Err(msg);
        case Ok(u) =>
          if writeError.Some? {
            r := Err(writeError.value);
          } else {
            var row := SessionRow(u, phonemeId, ecransCompletes.GetOr([]), scoreGlobal, dureeTotale, now);
            sessions := sessions + [row];
            r := Ok(row);
          }
      }
    }

    /** `useLogInteraction`: without a client or a user (demo mode) nothing is written and the result is null. */
    method LogInteraction(hasClient: bool, user: Option<string>, phonemeId: int, ecranNumero: int,
                          typeInteraction: string, donneesInteraction: string, sessionId: Option<string>,
                          writeError: Option<string>)
      returns (r: Result<Option<InteractionRow>>)
      modifies this
      ensures progress == old(progress) && sessions == old(sessions)
      ensures !hasClient || user.None? ==> r == Ok(None) && interactions == old(interactions)
      ensures hasClient && user.Some? && writeError.Some? ==>
        r == Err(writeError.value) && interactions == old(interactions)
      ensures hasClient && user.Some? && writeError.None? ==>
        r == Ok(Some(InteractionRow(user.value, SessionRef(sessionId), phonemeId, ecranNumero, typeInteraction, donneesInteraction)))
        && interactions == old(interactions) + [r.value.value]
    {
      if !hasClient || user.None? {
        r := Ok(None);
      } else if writeError.Some? {
        r := Err(writeError.value);
      } else {
        var row := InteractionRow(user.value, SessionRef(sessionId), phonemeId, ecranNumero, typeInteraction, donneesInteraction);
        interactions := interactions + [row];
        r := Ok(Some(row));
      }
    }
  }
}
