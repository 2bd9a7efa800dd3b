/**
 * The sign-in page: the form check, the email and password derived from the
 * name and the class code, the age-to-level table, and the sign-in flow that
 * creates the account and the profile on first use. Every backend call is
 * answered by a reply given up front; the flow records the calls it makes.
 */
module Login {
  import opened Types
  import opened Text
  import AppStore

  const MissingFields := "Tous les champs sont obligatoires"
  const AgeOutOfRange := "L'âge doit être entre 3 et 12 ans"
  const DefaultError := "Erreur de connexion"
  const InvalidCredentials := "Invalid login credentials"

  /** The three text inputs, as typed. */
  datatype Form = Form(nom: string, age: string, codeClasse: string)

  predicate FieldsMissing(f: Form) {
    Trim(f.nom) == [] || f.age == [] || Trim(f.codeClasse) == []
  }

  /** The parsed age is out of range; NaN (None) is never, since both comparisons are false. */
  predicate OutOfRange(age: Option<int>) {
    age.Some? && (age.value < 3 || age.value > 12)
  }

  /**
   * The two checks before any backend call: the required fields, then the
   * age range. On success the parsed age (None for NaN) is handed on.
   */
  function Validate(f: Form): (r: Result<Option<int>>)
    ensures r == Err(MissingFields) <==> FieldsMissing(f)
    ensures r == Err(AgeOutOfRange) <==> !FieldsMissing(f) && OutOfRange(ParseInt(f.age))
    ensures r.Ok? <==> !FieldsMissing(f) && !OutOfRange(ParseInt(f.age))
    ensures r.Ok? ==> r.value == ParseInt(f.age)
  {
    if FieldsMissing(f) then Err(MissingFields)
    else if OutOfRange(ParseInt(f.age)) then Err(AgeOutOfRange)
    else Ok(ParseInt(f.age))
  }

  /** A name made of white space only is refused whatever the other fields hold. */
  lemma BlankNameRefused(f: Form)
    requires AllSpace(f.nom)
    ensures Validate(f) == Err(MissingFields)
  {
    TrimEmptyIffAllSpace(f.nom);
  }

  /** An age such as "abc" parses to NaN and passes the range check. */
  lemma NonNumericAgePasses(f: Form)
    requires !FieldsMissing(f) && ParseInt(f.age).None?
    ensures Validate(f) == Ok(None)
  {
  }

  const Domain := "@classe-"
  const Suffix := ".local"

  /** The name lower-cased with its white space removed: the email's local part. */
  function LocalPart(nom: string): (l: string)
    ensures |l| <= |nom|
    ensures forall c :: c in l ==> !IsSpace(c) && !('A' <= c <= 'Z')
    ensures |nom| == 1 ==> l == if IsSpace(nom[0]) then [] else [LowerChar(nom[0])]
  {
    ToLowerIdempotent(nom);
    RemoveSpaces(ToLower(nom))
  }

  /**
   * The local part is built character by character: each character of the
   * name is lower-cased and kept, in order, unless it is white space.
   */
  lemma LocalPartConcat(a: string, b: string)
    ensures LocalPart(a + b) == LocalPart(a) + LocalPart(b)
  {
    ToLowerConcat(a, b);
    RemoveSpacesConcat(ToLower(a), ToLower(b));
  }

  /** White space inside or around a name does not change the account. */
  lemma LocalPartIgnoresSpaces(a: string, w: string, b: string)
    requires AllSpace(w)
    ensures LocalPart(a + w + b) == LocalPart(a + b)
  {
    LocalPartConcat(a + w, b);
    LocalPartConcat(a, w);
    LocalPartConcat(a, b);
    assert forall i :: 0 <= i < |w| ==> ToLower(w)[i] == w[i];
    RemoveSpacesAllSpace(ToLower(w));
  }

  /**
   * `nom.toLowerCase().replace(/\s+/g, '')@classe-<code>.local`: the local
   * part, the class domain at its end, and the code before the suffix.
   */
  function Email(f: Form): (e: string)
    ensures |e| == |LocalPart(f.nom)| + |Domain| + |f.codeClasse| + |Suffix|
    ensures e[..|LocalPart(f.nom)|] == LocalPart(f.nom)
    ensures OccursAt(e, Domain, |LocalPart(f.nom)|)
    ensures OccursAt(e, f.codeClasse, |LocalPart(f.nom)| + |Domain|)
    ensures e[|e| - |Suffix|..] == Suffix
  {
    LocalPart(f.nom) + Domain + f.codeClasse + Suffix
  }

  /** Names differing only in letter case give the same account. */
  lemma EmailIgnoresCase(f: Form, g: Form)
    requires ToLower(f.nom) == ToLower(g.nom) && f.codeClasse == g.codeClasse
    ensures Email(f) == Email(g)
  {
  }

  /** Different class codes give different accounts, whatever the names. */
  lemma EmailSeparatesClasses(f: Form, g: Form)
    requires LocalPart(f.nom) == LocalPart(g.nom) && f.codeClasse != g.codeClasse
    ensures Email(f) != Email(g)
  {
    var pre := LocalPart(f.nom) + Domain;
    var n := |f.codeClasse|;
    if n != |g.codeClasse| {
      assert |Email(f)| != |Email(g)|;
    } else {
      assert Email(f)[|pre|..|pre| + n] == f.codeClasse;
      assert Email(g)[|pre|..|pre| + n] == g.codeClasse;
    }
  }

  const Levels: seq<string> := ["PS", "MS", "GS", "CP", "CE1", "CE2", "CM1", "CM2"]

  /** `getNiveauFromAge`: 4 and below PS, one level a year up to 10, CM2 above (and for NaN). */
  function NiveauFromAge(age: Option<int>): (n: string)
    ensures n == Levels[LevelIndex(age)]
  {
    if age.None? then "CM2"
    else if age.value <= 4 then "PS"
    else if age.value <= 5 then "MS"
    else if age.value <= 6 then "GS"
    else if age.value <= 7 then "CP"
    else if age.value <= 8 then "CE1"
    else if age.value <= 9 then "CE2"
    else if age.value <= 10 then "CM1"
    else "CM2"
  }

  /** The position of an age's level in the school order, independently of the table's branches. */
  function LevelIndex(age: Option<int>): (i: nat)
    ensures i < |Levels|
  {
    if age.None? || age.value >= 11 then 7
    else if age.value <= 4 then 0
    else age.value - 4
  }

  /** An older child never gets a lower level. */
  lemma NiveauMonotone(a: int, b: int)
    requires a <= b
    ensures LevelIndex(Some(a)) <= LevelIndex(Some(b))
    ensures NiveauFromAge(Some(b)) == Levels[LevelIndex(Some(b))]
  {
  }

  /** Each age from 4 to 11 is one level above the previous one, and the accepted ages 3 to 12 span the whole table. */
  lemma NiveauSteps(a: int)
    requires 4 <= a < 11
    ensures LevelIndex(Some(a + 1)) == LevelIndex(Some(a)) + 1
    ensures NiveauFromAge(Some(3)) == "PS" && NiveauFromAge(Some(12)) == "CM2"
  {
  }

  // ---------------------------------------------------------------- the sign-in flow

  /** The profile row written when an account is created. */
  datatype NewProfile = NewProfile(id: string, nom: string, age: Option<int>, codeClasse: string, niveauScolaire: string)

  /** The backend calls the flow makes, in order. */
  datatype Call =
    | SignIn(email: string, password: string)
    | SignUp(email: string, password: string, nom: string, age: Option<int>, codeClasse: string)
    | InsertProfile(row: NewProfile)
    | SelectProfile(nom: string, codeClasse: string)

  /** What sign-up answers: an error, or the new account's user (absent when confirmation is pending). */
  datatype SignUpReply = SignUpFailed(message: string) | SignedUp(userId: Option<string>)

  /**
   * The answers the backend would give: the sign-in error message (None when
   * sign-in succeeds), the sign-up reply, the profile insert's error message,
   * and the single-profile query.
   */
  datatype Replies = Replies(signIn: Option<string>, signUp: SignUpReply, insert: Option<string>, profile: Result<StudentProfile>)

  datatype Outcome = Outcome(calls: seq<Call>, result: Result<StudentProfile>)

  predicate CreatesAccount(signIn: Option<string>) {
    signIn.Some? && Contains(signIn.value, InvalidCredentials)
  }

  /** From the profile query on: its error, or the profile. */
  function Fetch(f: Form, before: seq<Call>, r: Replies): Outcome {
    Outcome(before + [SelectProfile(f.nom, f.codeClasse)], r.profile)
  }

  /**
   * `handleLogin` after the checks, with the parsed age `ageNum`, for the
   * account `email` and the class code as password: sign-in, on an invalid-credentials error the sign-up and
   * the profile row, any other sign-in error rethrown, then the profile query.
   */
  function Proceed(f: Form, ageNum: Option<int>, email: string, r: Replies): (o: Outcome)
    ensures o.calls != [] && o.calls[0] == SignIn(email, f.codeClasse)
    ensures o.result.Ok? ==> o.result == r.profile && o.calls[|o.calls| - 1] == SelectProfile(f.nom, f.codeClasse)
  {
    var signIn := [SignIn(email, f.codeClasse)];
    if CreatesAccount(r.signIn) then
      var signUp := signIn + [SignUp(email, f.codeClasse, f.nom, ageNum, f.codeClasse)];
      match r.signUp
      case SignUpFailed(m) => Outcome(signUp, Err(m))
      case SignedUp(None) => Fetch(f, signUp, r)
      case SignedUp(Some(id)) =>
        var insert := signUp + [InsertProfile(NewProfile(id, f.nom, ageNum, f.codeClasse, NiveauFromAge(ageNum)))];
        if r.insert.Some? then Outcome(insert, Err(r.insert.value)) else Fetch(f, insert, r)
    else if r.signIn.Some? then Outcome(signIn, Err(r.signIn.value))
    else Fetch(f, signIn, r)
  }

  /** `handleLogin` after `setError('')`: a failed check ends it before any backend call. */
  function Flow(f: Form, email: string, r: Replies): (o: Outcome)
    ensures Validate(f).Err? ==> o == Outcome([], Err(Validate(f).message))
    ensures Validate(f).Ok? ==> o == Proceed(f, Validate(f).value, email, r)
  {
    match Validate(f)
    case Err(m) => Outcome([], Err(m))
    case Ok(ageNum) => Proceed(f, ageNum, email, r)
  }

  /** A form that passes the checks always reaches sign-in first, with the class code as password. */
  lemma FlowStart(f: Form, email: string, r: Replies)
    ensures Validate(f).Ok? ==> |Flow(f, email, r).calls| > 0 && Flow(f, email, r).calls[0] == SignIn(email, f.codeClasse)
  {
  }

  predicate SignsUp(calls: seq<Call>) {
    exists i :: 0 <= i < |calls| && calls[i].SignUp?
  }

  lemma ProceedSignsUp(f: Form, ageNum: Option<int>, email: string, r: Replies)
    ensures SignsUp(Proceed(f, ageNum, email, r).calls) <==> CreatesAccount(r.signIn)
  {
    var o := Proceed(f, ageNum, email, r);
    if CreatesAccount(r.signIn) {
      assert o.calls[1].SignUp?;
    } else {
      assert |o.calls| <= 2 && o.calls[0].SignIn?;
      assert |o.calls| == 2 ==> o.calls[1].SelectProfile?;
    }
  }

  /** Sign-up happens exactly when the form passes and sign-in fails with an invalid-credentials message. */
  lemma SignUpOnlyOnInvalidCredentials(f: Form, email: string, r: Replies)
    ensures SignsUp(Flow(f, email, r).calls) <==> Validate(f).Ok? && CreatesAccount(r.signIn)
  {
    if Validate(f).Ok? {
      ProceedSignsUp(f, Validate(f).value, email, r);
    }
  }

  /** Any other sign-in error ends the flow with that message, after the one sign-in call. */
  lemma OtherSignInErrorRethrown(f: Form, email: string, r: Replies)
    requires Validate(f).Ok? && r.signIn.Some? && !CreatesAccount(r.signIn)
    ensures Flow(f, email, r) == Outcome([SignIn(email, f.codeClasse)], Err(r.signIn.value))
  {
  }

  lemma ProceedInsert(f: Form, ageNum: Option<int>, email: string, r: Replies, i: int)
    requires 0 <= i < |Proceed(f, ageNum, email, r).calls| && Proceed(f, ageNum, email, r).calls[i].InsertProfile?
    ensures i == 2 && Proceed(f, ageNum, email, r).calls[1].SignUp? && CreatesAccount(r.signIn)
    ensures Proceed(f, ageNum, email, r).calls[i].row.age == ageNum
    ensures Proceed(f, ageNum, email, r).calls[i].row.niveauScolaire == NiveauFromAge(ageNum)
    ensures r.signUp.SignedUp? && r.signUp.userId == Some(Proceed(f, ageNum, email, r).calls[i].row.id)
  {
    InsertNeedsSignUp(f, ageNum, email, r);
  }

  /** Without an invalid-credentials error the flow writes no profile row. */
  lemma InsertNeedsSignUp(f: Form, ageNum: Option<int>, email: string, r: Replies)
    ensures !CreatesAccount(r.signIn) ==>
      forall i :: 0 <= i < |Proceed(f, ageNum, email, r).calls| ==> !Proceed(f, ageNum, email, r).calls[i].InsertProfile?
  {
    var o := Proceed(f, ageNum, email, r);
    if !CreatesAccount(r.signIn) {
      assert |o.calls| <= 2 && o.calls[0].SignIn?;
      assert |o.calls| == 2 ==> o.calls[1].SelectProfile?;
    }
  }

  /** A profile row is written only after sign-up, with the parsed age and the level of that age. */
  lemma CreatedProfileLevel(f: Form, email: string, r: Replies, i: int)
    requires 0 <= i < |Flow(f, email, r).calls| && Flow(f, email, r).calls[i].InsertProfile?
    ensures i == 2 && Flow(f, email, r).calls[1].SignUp?
    ensures Validate(f).Ok? && CreatesAccount(r.signIn)
    ensures Flow(f, email, r).calls[i].row.age == ParseInt(f.age)
    ensures Flow(f, email, r).calls[i].row.niveauScolaire == NiveauFromAge(ParseInt(f.age))
    ensures r.signUp.SignedUp? && r.signUp.userId == Some(Flow(f, email, r).calls[i].row.id)
  {
    ProceedInsert(f, Validate(f).value, email, r, i);
  }

  /** `err.message || 'Erreur de connexion'`. */
  function ErrorText(message: string): (t: string)
    ensures t != []
    ensures message != [] ==> t == message
  {
    if message == [] then DefaultError else message
  }

  /** The sign-in form's own state. */
  class Page {
    var error: string
    var isLoading: bool

    constructor ()
      ensures error == [] && !isLoading
    {
      error := [];
      isLoading := false;
    }

    /**
     * Submitting the form: the flow for `Email(f)`, then either the store gets
     * the profile and the page moves on to the student area, or the error is
     * shown; loading ends either way.
     */
    method HandleLogin(store: AppStore.Store, f: Form, r: Replies) returns (o: Outcome, redirected: bool)
      modifies this, store
      ensures o == Flow(f, Email(f), r)
      ensures !isLoading
      ensures error == (if o.result.Err? then ErrorText(o.result.message) else [])
      ensures redirected <==> o.result.Ok?
      ensures o.result.Ok? ==> store.user == Some(o.result.value) && store.isAuthenticated
      ensures o.result.Err? ==> store.user == old(store.user) && store.isAuthenticated == old(store.isAuthenticated)
      ensures store.sessionData == old(store.sessionData) && store.phonemes == old(store.phonemes)
      ensures store.userProgress == old(store.userProgress)
      ensures store.isLoading == old(store.isLoading) && store.error == old(store.error)
    {
      isLoading := true;
      error := [];
      o := Flow(f, Email(f), r);
      match o.result {
        case Ok(profile) =>
          store.SetUser(Some(profile));
          store.SetAuthenticated(true);
          redirected := true;
        case Err(m) =>
          error := ErrorText(m);
          redirected := false;
      }
      isLoading := false;
    }
  }
}
