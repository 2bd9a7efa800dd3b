/**
 * The application's client-side store: the signed-in student, the
 * authentication flag, the running phoneme session, cached phonemes and
 * progress rows, and the UI flags. Each action replaces some fields; only
 * the user and the authentication flag are persisted.
 */
module AppStore {
  import opened Types

  /** One phoneme session: `sessionProgress` maps a screen number to the score obtained on it. */
  datatype SessionData = SessionData(
    startTime: Option<int>,
    currentPhoneme: Option<Phoneme>,
    currentScreen: int,
    totalScreens: int,
    sessionProgress: map<int, real>)

  /** Screen 1 of 7, nothing recorded, no phoneme. */
  const InitialSession := SessionData(None, None, 1, 7, map[])

  /** The session after `updateSessionProgress(n, s)`. */
  function Progressed(sd: SessionData, n: int, s: real): (r: SessionData)
    ensures r.currentScreen <= sd.totalScreens
    ensures r.currentScreen == n + 1 || r.currentScreen == sd.totalScreens
    ensures n + 1 <= sd.totalScreens ==> r.currentScreen == n + 1
    ensures n in r.sessionProgress && r.sessionProgress[n] == s
    ensures r.sessionProgress.Keys == sd.sessionProgress.Keys + {n}
    ensures forall k :: k in sd.sessionProgress && k != n ==> r.sessionProgress[k] == sd.sessionProgress[k]
    ensures r.totalScreens == sd.totalScreens && r.currentPhoneme == sd.currentPhoneme && r.startTime == sd.startTime
  {
    var screen := if n + 1 < sd.totalScreens then n + 1 else sd.totalScreens;
    sd.(currentScreen := screen, sessionProgress := sd.sessionProgress[n := s])
  }

  /** A run of `updateSessionProgress` calls, in order. */
  function ProgressedAll(sd: SessionData, updates: seq<(int, real)>): SessionData
    decreases |updates|
  {
    if updates == [] then sd
    else ProgressedAll(Progressed(sd, updates[0].0, updates[0].1), updates[1..])
  }

  /**
   * Whatever screens are reported, the session never points past its last
   * screen, keeps 7 screens, and records a score for every reported screen.
   */
  lemma {:induction false} ProgressedAllBounded(sd: SessionData, updates: seq<(int, real)>)
    requires sd.currentScreen <= sd.totalScreens
    ensures ProgressedAll(sd, updates).currentScreen <= sd.totalScreens
    ensures ProgressedAll(sd, updates).totalScreens == sd.totalScreens
    ensures forall i :: 0 <= i < |updates| ==> updates[i].0 in ProgressedAll(sd, updates).sessionProgress
    decreases |updates|
  {
    if updates != [] {
      var next := Progressed(sd, updates[0].0, updates[0].1);
      ProgressedAllBounded(next, updates[1..]);
      ProgressedAllKeys(next, updates[1..]);
    }
  }

  lemma {:induction false} ProgressedAllKeys(sd: SessionData, updates: seq<(int, real)>)
    ensures sd.sessionProgress.Keys <= ProgressedAll(sd, updates).sessionProgress.Keys
    decreases |updates|
  {
    if updates != [] {
      ProgressedAllKeys(Progressed(sd, updates[0].0, updates[0].1), updates[1..]);
    }
  }

  /** The screen can move backwards: reporting screen 1 while on screen 5 goes back to screen 2. */
  lemma ProgressedCanMoveBack(sd: SessionData, s: real)
    requires sd.currentScreen == 5 && sd.totalScreens == 7
    ensures Progressed(sd, 1, s).currentScreen == 2 < sd.currentScreen
  {
  }

  /** What the store persists between visits. */
  datatype Persisted = Persisted(user: Option<StudentProfile>, isAuthenticated: bool)

  class Store {
    var user: Option<StudentProfile>
    var isAuthenticated: bool
    var sessionData: SessionData
    var phonemes: seq<Phoneme>
    var userProgress: seq<ProgressRow>
    var isLoading: bool
    var error: Option<string>

    /** A fresh store: nobody signed in, the initial session, empty caches. */
    constructor ()
      ensures user.None? && !isAuthenticated && sessionData == InitialSession
      ensures phonemes == [] && userProgress == [] && !isLoading && error.None?
    {
      user := None;
      isAuthenticated := false;
      sessionData := InitialSession;
      phonemes := [];
      userProgress := [];
      isLoading := false;
      error := None;
    }

    /** A store rehydrated from its persisted part: the session starts over. */
    constructor Restore(p: Persisted)
      ensures Partialize() == p
      ensures sessionData == InitialSession
      ensures phonemes == [] && userProgress == [] && !isLoading && error.None?
    {
      user := p.user;
      isAuthenticated := p.isAuthenticated;
      sessionData := InitialSession;
      phonemes := [];
      userProgress := [];
      isLoading := false;
      error := None;
    }

    /** The persisted projection: the user and the flag, never the session. */
    function Partialize(): (p: Persisted)
      reads this
      ensures p.user == user && p.isAuthenticated == isAuthenticated
    {
      Persisted(user, isAuthenticated)
    }

    method SetUser(u: Option<StudentProfile>)
      modifies this
      ensures user == u
      ensures isAuthenticated == old(isAuthenticated) && sessionData == old(sessionData)
      ensures phonemes == old(phonemes) && userProgress == old(userProgress)
      ensures isLoading == old(isLoading) && error == old(error)
    {
      user := u;
    }

    method SetAuthenticated(authenticated: bool)
      modifies this
      ensures isAuthenticated == authenticated
      ensures user == old(user) && sessionData == old(sessionData)
      ensures phonemes == old(phonemes) && userProgress == old(userProgress)
      ensures isLoading == old(isLoading) && error == old(error)
    {
      isAuthenticated := authenticated;
    }

    /** A new session on `phoneme`, started at `now`, on screen 1 of 7 with nothing recorded. */
    method StartPhonemeSession(phoneme: Phoneme, now: int)
      modifies this
      ensures sessionData == SessionData(Some(now), Some(phoneme), 1, 7, map[])
      ensures user == old(user) && isAuthenticated == old(isAuthenticated)
      ensures phonemes == old(phonemes) && userProgress == old(userProgress)
      ensures isLoading == old(isLoading) && error == old(error)
    {
      sessionData := SessionData(Some(now), Some(phoneme), 1, 7, map[]);
    }

    method UpdateSessionProgress(screenNumber: int, score: real)
      modifies this
      ensures sessionData == Progressed(old(sessionData), screenNumber, score)
      ensures user == old(user) && isAuthenticated == old(isAuthenticated)
      ensures phonemes == old(phonemes) && userProgress == old(userProgress)
      ensures isLoading == old(isLoading) && error == old(error)
    {
      var screen := if screenNumber + 1 < sessionData.totalScreens then screenNumber + 1 else sessionData.totalScreens;
      sessionData := sessionData.(currentScreen := screen,
                                  sessionProgress := sessionData.sessionProgress[screenNumber := score]);
    }

    method SetPhonemes(ps: seq<Phoneme>)
      modifies this
      ensures phonemes == ps
      ensures user == old(user) && isAuthenticated == old(isAuthenticated) && sessionData == old(sessionData)
      ensures userProgress == old(userProgress) && isLoading == old(isLoading) && error == old(error)
    {
      phonemes := ps;
    }

    method SetUserProgress(rows: seq<ProgressRow>)
      modifies this
      ensures userProgress == rows
      ensures user == old(user) && isAuthenticated == old(isAuthenticated) && sessionData == old(sessionData)
      ensures phonemes == old(phonemes) && isLoading == old(isLoading) && error == old(error)
    {
      userProgress := rows;
    }

    method SetLoading(loading: bool)
      modifies this
      ensures isLoading == loading
      ensures user == old(user) && isAuthenticated == old(isAuthenticated) && sessionData == old(sessionData)
      ensures phonemes == old(phonemes) && userProgress == old(userProgress) && error == old(error)
    {
      isLoading := loading;
    }

    method SetError(e: Option<string>)
      modifies this
      ensures error == e
      ensures user == old(user) && isAuthenticated == old(isAuthenticated) && sessionData == old(sessionData)
      ensures phonemes == old(phonemes) && userProgress == old(userProgress) && isLoading == old(isLoading)
    {
      error := e;
    }

    /** Back to screen 1 of 7 with nothing recorded and no phoneme. */
    method ResetSession()
      modifies this
      ensures sessionData == InitialSession
      ensures user == old(user) && isAuthenticated == old(isAuthenticated)
      ensures phonemes == old(phonemes) && userProgress == old(userProgress)
      ensures isLoading == old(isLoading) && error == old(error)
    {
      sessionData := InitialSession;
    }
  }
}
