/**
 * The low-bandwidth variant of the sign-in page: its own connection-quality
 * hook, an email built from letters only, an auth timeout that depends on
 * the quality, and error messages that point at the network. The checks, the
 * level table and the sign-in flow are those of `Login`.
 */
module LoginCongo {
  import opened Types
  import opened Text
  import Login
  import AppStore

  /** The hook's classification: slow for 2g and 3g types, fast otherwise; never offline. */
  function HookClassify(effectiveType: Option<string>): (q: Quality)
    ensures q != Offline
    ensures q == Slow <==> effectiveType == Some("slow-2g") || effectiveType == Some("2g") || effectiveType == Some("3g")
  {
    if effectiveType == Some("slow-2g") || effectiveType == Some("2g") then Slow
    else if effectiveType == Some("3g") then Slow
    else Fast
  }

  /** `useConnectionQuality`: 'fast' until the Connection API, when present, says otherwise. */
  class QualityHook {
    var quality: Quality
    var hasConnection: bool

    constructor (connection: bool, effectiveType: Option<string>)
      ensures hasConnection == connection
      ensures quality == (if connection then HookClassify(effectiveType) else Fast)
      ensures quality != Offline
    {
      hasConnection := connection;
      quality := if connection then HookClassify(effectiveType) else Fast;
    }

    /** The connection's `change` event, heard only when the Connection API is present. */
    method OnChange(effectiveType: Option<string>)
      requires quality != Offline
      modifies this
      ensures quality == (if hasConnection then HookClassify(effectiveType) else old(quality))
      ensures hasConnection == old(hasConnection)
      ensures quality != Offline
    {
      if hasConnection {
        quality := HookClassify(effectiveType);
      }
    }
  }

  /** Animations only on a fast connection. */
  function ShouldUseAnimations(q: Quality): (b: bool)
    ensures b <==> q == Fast
  {
    q == Fast
  }

  /** The sign-in timeout in milliseconds: longer on a slow connection. */
  function AuthTimeout(q: Quality): (ms: nat)
    ensures q == Slow ==> ms == 15000
    ensures q != Slow ==> ms == 10000
  {
    if q == Slow then 15000 else 10000
  }

  const Domain := "@classe"
  const Suffix := ".enaa"

  /** The name lower-cased with every character outside a to z dropped. */
  function LocalPart(nom: string): (l: string)
    ensures forall i :: 0 <= i < |l| ==> 'a' <= l[i] <= 'z'
    ensures forall c :: 'a' <= c <= 'z' ==> (c in l <==> c in nom || (c as int - 'a' as int + 'A' as int) as char in nom)
    ensures |nom| == 1 ==> l == if 'a' <= LowerChar(nom[0]) <= 'z' then [LowerChar(nom[0])] else []
  {
    LowerLetters(nom);
    KeepLowerLetters(ToLower(nom))
  }

  /**
   * The local part is built character by character: each character of the
   * name is lower-cased and kept, in order, when it is then a letter a to z.
   */
  lemma LocalPartConcat(a: string, b: string)
    ensures LocalPart(a + b) == LocalPart(a) + LocalPart(b)
  {
    ToLowerConcat(a, b);
    KeepLowerLettersConcat(ToLower(a), ToLower(b));
  }

  /** A lower-case letter occurs in the lower-cased name iff it or its capital occurs in the name. */
  lemma LowerLetters(nom: string)
    ensures forall c :: 'a' <= c <= 'z' ==>
      (c in ToLower(nom) <==> c in nom || (c as int - 'a' as int + 'A' as int) as char in nom)
  {
    forall c | 'a' <= c <= 'z'
      ensures c in ToLower(nom) <==> c in nom || (c as int - 'a' as int + 'A' as int) as char in nom
    {
      LowerLetter(nom, c);
    }
  }

  lemma LowerLetter(nom: string, c: char)
    requires 'a' <= c <= 'z'
    ensures c in ToLower(nom) <==> c in nom || (c as int - 'a' as int + 'A' as int) as char in nom
  {
    var lower := ToLower(nom);
    var up := (c as int - 'a' as int + 'A' as int) as char;
    if c in lower {
      var i :| 0 <= i < |lower| && lower[i] == c;
      assert nom[i] == c || nom[i] == up;
    }
    if c in nom {
      var i :| 0 <= i < |nom| && nom[i] == c;
      assert lower[i] == c;
    }
    if up in nom {
      var i :| 0 <= i < |nom| && nom[i] == up;
      assert lower[i] == c;
    }
  }

  /** `nom.toLowerCase().replace(/[^a-z]/g, '')@classe<code lower-cased>.enaa`. */
  function Email(f: Login.Form): (e: string)
    ensures |e| == |LocalPart(f.nom)| + |Domain| + |f.codeClasse| + |Suffix|
    ensures e[..|LocalPart(f.nom)|] == LocalPart(f.nom)
    ensures OccursAt(e, Domain, |LocalPart(f.nom)|)
    ensures OccursAt(e, ToLower(f.codeClasse), |LocalPart(f.nom)| + |Domain|)
    ensures e[|e| - |Suffix|..] == Suffix
  {
    LocalPart(f.nom) + Domain + ToLower(f.codeClasse) + Suffix
  }

  /** Accented letters do not reach the email: "Zoé" signs in as "zo". */
  lemma AccentsDropped()
    ensures LocalPart("Zoé") == "zo"
  {
    assert ToLower("Zoé") == "zoé";
    assert KeepLowerLetters("é") == "";
    assert KeepLowerLetters("zoé") == "zo" + KeepLowerLetters("é");
  }

  const TimeoutMessage := "Connexion trop lente. Réessayez."
  const SlowConnectionMessage := "🌐 Connexion lente détectée. Vérifiez votre réseau et réessayez."

  /** How the sign-in call ended: the timeout fired first, or the backend answered (with an error message or none). */
  datatype SignInRace = TimedOut | Answered(error: Option<string>)

  /** The sign-in error the flow sees: the timeout's rejection, or the backend's error. */
  function SignInError(race: SignInRace): (e: Option<string>)
    ensures race.TimedOut? ==> e == Some(TimeoutMessage)
    ensures race.Answered? ==> e == race.error
  {
    match race
    case TimedOut => Some(TimeoutMessage)
    case Answered(err) => err
  }

  /** The shared sign-in flow, for this page's email, with the race deciding the sign-in reply. */
  function Flow(f: Login.Form, race: SignInRace, r: Login.Replies): (o: Login.Outcome)
    ensures Login.Validate(f).Err? ==> o == Login.Outcome([], Err(Login.Validate(f).message))
  {
    Login.Flow(f, Email(f), r.(signIn := SignInError(race)))
  }

  /** A form that passes the checks reaches sign-in first, for this page's email. */
  lemma FlowStart(f: Login.Form, race: SignInRace, r: Login.Replies)
    requires Login.Validate(f).Ok?
    ensures |Flow(f, race, r).calls| > 0 && Flow(f, race, r).calls[0] == Login.SignIn(Email(f), f.codeClasse)
  {
    Login.FlowStart(f, Email(f), r.(signIn := SignInError(race)));
  }

  /** A timed-out sign-in never creates an account: the timeout's text has no invalid-credentials message. */
  lemma TimeoutEndsFlow(f: Login.Form, r: Login.Replies)
    requires Login.Validate(f).Ok?
    ensures Flow(f, TimedOut, r) == Login.Outcome([Login.SignIn(Email(f), f.codeClasse)], Err(TimeoutMessage))
  {
    TimeoutIsNotInvalidCredentials();
    Login.OtherSignInErrorRethrown(f, Email(f), r.(signIn := Some(TimeoutMessage)));
  }

  /** The timeout's text has no capital I, so it is not an invalid-credentials message. */
  lemma TimeoutIsNotInvalidCredentials()
    ensures !Contains(TimeoutMessage, Login.InvalidCredentials)
  {
    TimeoutLetters();
    MissingCharNotContained(TimeoutMessage, Login.InvalidCredentials, 'I');
  }

  /** If some character of `sub` never occurs in `s`, then `s` does not contain `sub`. */
  lemma MissingCharNotContained(s: string, sub: string, c: char)
    requires c in sub && c !in s
    ensures !Contains(s, sub)
  {
    var j :| 0 <= j < |sub| && sub[j] == c;
    forall i | 0 <= i <= |s| - |sub|
      ensures !OccursAt(s, sub, i)
    {
      assert s[i..i + |sub|][j] == s[i + j];
      assert s[i + j] != c;
    }
  }

  /** A message naming a timeout or the network becomes the slow-connection text; any other is shown as it is (or the default when empty). */
  function ErrorText(message: string): (t: string)
    ensures Contains(message, "timeout") || Contains(message, "network") ==> t == SlowConnectionMessage
    ensures !(Contains(message, "timeout") || Contains(message, "network")) ==> t == Login.ErrorText(message)
  {
    if Contains(message, "timeout") || Contains(message, "network") then SlowConnectionMessage
    else Login.ErrorText(message)
  }

  /** The timeout's own message names neither, so it is shown word for word. */
  lemma TimeoutShownVerbatim()
    ensures ErrorText(TimeoutMessage) == TimeoutMessage
  {
    TimeoutLetters();
    MissingCharNotContained(TimeoutMessage, "timeout", 'u');
    MissingCharNotContained(TimeoutMessage, "network", 'w');
  }

  /** Letters the timeout's text does not use. */
  lemma TimeoutLetters()
    ensures 'u' !in TimeoutMessage && 'w' !in TimeoutMessage && 'I' !in TimeoutMessage
    ensures 'u' in "timeout" && 'w' in "network" && 'I' in Login.InvalidCredentials
  {
    assert 'I' == Login.InvalidCredentials[0];
    assert 'u' == "timeout"[5];
    assert 'w' == "network"[3];
    forall i | 0 <= i < |TimeoutMessage|
      ensures TimeoutMessage[i] != 'u' && TimeoutMessage[i] != 'w' && TimeoutMessage[i] != 'I'
    {
    }
  }

  /** A backend message such as "Failed: network error" is replaced by the slow-connection text. */
  lemma NetworkErrorReplaced(message: string, i: int)
    requires OccursAt(message, "network", i)
    ensures ErrorText(message) == SlowConnectionMessage
  {
  }

  /** The page's own state. */
  class Page {
    var error: string
    var isLoading: bool

    constructor ()
      ensures error == [] && !isLoading
    {
      error := [];
      isLoading := false;
    }

    /**
     * Submitting the form: the flow, then the store gets the profile and the
     * page moves on, or the mapped error is shown; loading ends either way.
     */
    method HandleLogin(store: AppStore.Store, f: Login.Form, race: SignInRace, r: Login.Replies)
      returns (o: Login.Outcome, redirected: bool)
      modifies this, store
      ensures o == Flow(f, race, r)
      ensures !isLoading
      ensures error == (if o.result.Err? then ErrorText(o.result.message) else [])
      ensures redirected <==> o.result.Ok?
      ensures o.result.Ok? ==> store.user == Some(o.result.value) && store.isAuthenticated
      ensures o.result.Err? ==> store.user == old(store.user) && store.isAuthenticated == old(store.isAuthenticated)
      ensures store.sessionData == old(store.sessionData) && store.phonemes == old(store.phonemes)
      ensures store.userProgress == old(store.userProgress)
      ensures store.isLoading == old(store.isLoading) && store.error == old(store.error)
    {
      isLoading := true;
      error := [];
      o := Flow(f, race, r);
      match o.result {
        case Ok(profile) =>
          store.SetUser(Some(profile));
          store.SetAuthenticated(true);
          redirected := true;
        case Err(m) =>
          error := ErrorText(m);
          redirected := false;
      }
      isLoading := false;
    }
  }
}
