/**
 * Failure-compatible wrappers and the record shapes of the learning
 * application's backend tables (profiles, phonemes), shared by every module.
 */
module Types {

  /** A value that may be absent (JavaScript `null`/`undefined`, or NaN for numbers). */
  datatype Option<+T> = None | Some(value: T) {
    function GetOr(default: T): T {
      match this
      case Some(v) => v
      case None => default
    }
  }

  /** The result of an operation that may fail with an error message. */
  datatype Result<+T> = Ok(value: T) | Err(message: string)

  /**
   * What a backend query gives back: a failure (an error in the reply or a
   * thrown exception, which every caller handles alike), or the `data` field,
   * which may be null.
   */
  datatype Reply<+T> = Failure | Data(data: Option<T>)

  /** The connection quality the low-bandwidth variants of the interface react to. */
  datatype Quality = Fast | Slow | Offline

  /** A row of the `phonemes` table. */
  datatype Phoneme = Phoneme(
    id: int,
    symbole: string,
    graphemes: seq<string>,
    phase: int,
    ordrePhase: int,
    niveauMin: string,
    difficulte: int,
    description: Option<string>)

  /** A row of the `profiles` table (the free-form `preferences` column is not modelled). */
  datatype StudentProfile = StudentProfile(
    id: string,
    nom: string,
    prenom: Option<string>,
    age: Option<int>,
    niveauScolaire: Option<string>,
    codeClasse: Option<string>)

  /**
   * A row of the `progression_eleves` table: one student's record for one
   * screen of one phoneme. Scores and times are reals; `createdAt` is the
   * row's creation instant as a number (the table orders rows by it).
   */
  datatype ProgressRow = ProgressRow(
    id: string,
    eleveId: string,
    phonemeId: int,
    ecranNumero: int,
    tentatives: int,
    meilleurScore: Option<real>,
    scoreActuel: Option<real>,
    tempsTotal: real,
    maitrise: bool,
    derniereTentative: Option<string>,
    maitriseAtteinte: Option<string>,
    createdAt: int)
}
