/**
 * The demonstration data used when no backend is configured or reachable:
 * five phonemes, a demo student, the demo progress record and the mock
 * backend operations.
 */
module DemoData {
  import opened Types
  import opened Text

  const DemoPhonemes: seq<Phoneme> := [
    Phoneme(1, "/a/", ["a", "A", "à"], 1, 1, "MS", 1, Some("Premier phonème voyelle, le plus simple et fréquent")),
    Phoneme(2, "/i/", ["i", "I", "î"], 1, 2, "MS", 1, Some("Voyelle fermée antérieure simple")),
    Phoneme(3, "/o/", ["o", "O", "ô"], 1, 3, "MS", 1, Some("Voyelle moyenne postérieure simple")),
    Phoneme(4, "/m/", ["m", "M", "mm"], 2, 1, "GS", 2, Some("Première consonne continue, bilabiale")),
    Phoneme(5, "/l/", ["l", "L", "ll"], 2, 2, "GS", 2, Some("Consonne liquide latérale fréquente"))]

  const DemoStudent := StudentProfile("demo-student-123", "Demo", Some("Élève"), Some(6), Some("CP"), Some("DEMO2024"))

  /** Screen scores per phoneme id at start-up: /a/ mastered, /i/ under way, the rest not started. */
  const InitialProgress: map<int, real> := map[1 := 85.0, 2 := 60.0, 3 := 0.0, 4 := 0.0, 5 := 0.0]

  /** (phase, ordre_phase) order, the order the backend's phoneme query uses. */
  predicate PhaseOrdered(ps: seq<Phoneme>) {
    forall i, j :: 0 <= i < j < |ps| ==>
      ps[i].phase < ps[j].phase || (ps[i].phase == ps[j].phase && ps[i].ordrePhase <= ps[j].ordrePhase)
  }

  /** The demo ids are 1 to 5 in order (so distinct), and the list is in (phase, ordre_phase) order. */
  lemma DemoPhonemesShape()
    ensures |DemoPhonemes| == 5
    ensures forall i :: 0 <= i < |DemoPhonemes| ==> DemoPhonemes[i].id == i + 1
    ensures PhaseOrdered(DemoPhonemes)
    ensures InitialProgress.Keys == set i | 0 <= i < |DemoPhonemes| :: DemoPhonemes[i].id
  {
    DemoIds();
    DemoOrdered();
    var ids := set i | 0 <= i < |DemoPhonemes| :: DemoPhonemes[i].id;
    assert ids <= InitialProgress.Keys;
    forall x | x in InitialProgress.Keys ensures x in ids {
      assert DemoPhonemes[x - 1].id == x;
    }
  }

  lemma DemoIds()
    ensures |DemoPhonemes| == 5
    ensures forall i :: 0 <= i < |DemoPhonemes| ==> DemoPhonemes[i].id == i + 1
  {
  }

  lemma DemoOrdered()
    ensures PhaseOrdered(DemoPhonemes)
  {
    forall i, j | 0 <= i < j < |DemoPhonemes|
      ensures DemoPhonemes[i].phase < DemoPhonemes[j].phase
        || (DemoPhonemes[i].phase == DemoPhonemes[j].phase && DemoPhonemes[i].ordrePhase <= DemoPhonemes[j].ordrePhase)
    {
    }
  }

  /** The decimal spelling of an integer, as a template literal prints it. */
  function IntToString(n: int): (s: string)
    ensures n >= 0 ==> s == NatToString(n)
  {
    if n >= 0 then NatToString(n) else "-" + NatToString(-n)
  }

  /** An integer key printed and parsed back is the key: `parseInt(String(n)) == n`. */
  lemma ParseIntIntToString(n: int)
    ensures ParseInt(IntToString(n)) == Some(n)
  {
    if n >= 0 {
      ParseIntNatToString(n);
    } else {
      var d := NatToString(-n);
      var s := IntToString(n);
      ValueOfNatToString(-n);
      DigitRunAllDigits(d, 10);
      assert s[0] == '-' && !IsSpace(s[0]);
      assert TrimStart(s) == s;
      assert s[1..] == d;
      assert !(|d| >= 2 && d[0] == '0');
      assert d[..|d|] == d;
    }
  }

  /** The position of the first phoneme with id `id`. */
  function IndexOf(ps: seq<Phoneme>, id: int): (r: Option<nat>)
    ensures r.Some? ==> r.value < |ps| && ps[r.value].id == id
    ensures r.Some? ==> forall j :: 0 <= j < r.value ==> ps[j].id != id
    ensures r.None? <==> forall j :: 0 <= j < |ps| ==> ps[j].id != id
  {
    if ps == [] then None
    else if ps[0].id == id then Some(0)
    else match IndexOf(ps[1..], id)
      case None => None
      case Some(i) => Some(i + 1)
  }

  function NotFound(id: int): string {
    "Phonème avec l'ID " + IntToString(id) + " non trouvé"
  }

  /** `getPhoneme(id)`: the phoneme with that id, or the "not found" error naming the id. */
  function GetPhoneme(id: int): (r: Result<Phoneme>)
    ensures r.Ok? <==> exists i :: 0 <= i < |DemoPhonemes| && DemoPhonemes[i].id == id
    ensures r.Ok? ==> r.value in DemoPhonemes && r.value.id == id
    ensures r.Err? ==> r.message == NotFound(id)
  {
    match IndexOf(DemoPhonemes, id)
    case Some(i) => Ok(DemoPhonemes[i])
    case None => Err(NotFound(id))
  }

  /** Exactly the ids 1 to 5 are found. */
  lemma GetPhonemeFinds(id: int)
    ensures GetPhoneme(id).Ok? <==> 1 <= id <= 5
    ensures 1 <= id <= 5 ==> GetPhoneme(id) == Ok(DemoPhonemes[id - 1])
  {
    DemoPhonemesShape();
    if 1 <= id <= 5 {
      assert DemoPhonemes[id - 1].id == id;
    }
  }

  /** The progress record after `saveProgress(_, id, _, score)`. */
  function SavedProgress(m: map<int, real>, id: int, score: real): (r: map<int, real>)
    ensures r.Keys == m.Keys
    ensures id in m && score > m[id] ==> r == m[id := score]
    ensures !(id in m && score > m[id]) ==> r == m
  {
    if id in m && score > m[id] then m[id := score] else m
  }

  /** A saved score only raises the record: each entry becomes the larger of old and new, and no key is added. */
  lemma SaveKeepsMaximum(m: map<int, real>, id: int, score: real)
    ensures forall k :: k in m ==> SavedProgress(m, id, score)[k] >= m[k]
    ensures id in m ==> SavedProgress(m, id, score)[id] == if score > m[id] then score else m[id]
    ensures id !in m ==> SavedProgress(m, id, score) == m
  {
  }

  /** Saving the same score twice is saving it once. */
  lemma SaveIdempotent(m: map<int, real>, id: int, score: real)
    ensures SavedProgress(SavedProgress(m, id, score), id, score) == SavedProgress(m, id, score)
  {
  }

  /** `Partial<StudentProfile>`: a field is Some when the key is present (with that value). */
  datatype ProfileFields = ProfileFields(
    id: Option<string>, nom: Option<string>, prenom: Option<Option<string>>, age: Option<Option<int>>,
    niveauScolaire: Option<Option<string>>, codeClasse: Option<Option<string>>)

  function Pick<T>(field: Option<T>, default: T): T {
    if field.Some? then field.value else default
  }

  /** `createProfile(fields)`: the demo student with every supplied field taking the supplied value. */
  function CreateProfile(f: ProfileFields): (p: StudentProfile)
    ensures f.id.Some? ==> p.id == f.id.value
    ensures f.id.None? ==> p.id == DemoStudent.id
    ensures f.nom.Some? ==> p.nom == f.nom.value
    ensures f.nom.None? ==> p.nom == DemoStudent.nom
    ensures f.prenom.Some? ==> p.prenom == f.prenom.value
    ensures f.prenom.None? ==> p.prenom == DemoStudent.prenom
    ensures f.age.Some? ==> p.age == f.age.value
    ensures f.age.None? ==> p.age == DemoStudent.age
    ensures f.niveauScolaire.Some? ==> p.niveauScolaire == f.niveauScolaire.value
    ensures f.niveauScolaire.None? ==> p.niveauScolaire == DemoStudent.niveauScolaire
    ensures f.codeClasse.Some? ==> p.codeClasse == f.codeClasse.value
    ensures f.codeClasse.None? ==> p.codeClasse == DemoStudent.codeClasse
  {
    StudentProfile(Pick(f.id, DemoStudent.id), Pick(f.nom, DemoStudent.nom), Pick(f.prenom, DemoStudent.prenom),
      Pick(f.age, DemoStudent.age), Pick(f.niveauScolaire, DemoStudent.niveauScolaire),
      Pick(f.codeClasse, DemoStudent.codeClasse))
  }

  /** No fields gives the demo student; every field given gives exactly the fields. */
  lemma CreateProfileExtremes(f: ProfileFields)
    ensures CreateProfile(ProfileFields(None, None, None, None, None, None)) == DemoStudent
    ensures f.id.Some? && f.nom.Some? && f.prenom.Some? && f.age.Some? && f.niveauScolaire.Some? && f.codeClasse.Some? ==>
      CreateProfile(f) == StudentProfile(f.id.value, f.nom.value, f.prenom.value, f.age.value,
                                         f.niveauScolaire.value, f.codeClasse.value)
  {
  }

  /** The `{data, error}` pair the mock operations answer with; `error` is always null. */
  datatype MockReply = MockReply(data: Option<map<int, real>>)

  /** The mock backend and its module-level progress record. */
  class DemoBackend {
    var progress: map<int, real>

    constructor ()
      ensures progress == InitialProgress
    {
      progress := InitialProgress;
    }

    /** `getProgress(userId)`: the record, whoever asks. */
    method GetProgress(userId: string) returns (r: MockReply)
      ensures r == MockReply(Some(progress))
    {
      r := MockReply(Some(progress));
    }

    /** `saveProgress`: the user and the screen are ignored, the reply carries no data. */
    method SaveProgress(userId: string, phonemeId: int, screenNum: int, score: real) returns (r: MockReply)
      modifies this
      ensures progress == SavedProgress(old(progress), phonemeId, score)
      ensures r == MockReply(None)
    {
      if phonemeId in progress && score > progress[phonemeId] {
        progress := progress[phonemeId := score];
      }
      r := MockReply(None);
    }
  }
}
