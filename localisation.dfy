/**
 * The "locate" exercise: each word is shown split into syllables and the
 * child clicks the syllable holding the phoneme. The words come from a
 * constant table keyed by the phoneme symbol, shuffled, and are scored by the
 * shared state machine.
 */
module Localisation {
  import opened Types
  import opened Scoring

  datatype Position = Debut | Milieu | Fin

  /** A word, its syllables, where the phoneme sits and the index of its syllable. */
  datatype WordPosition = WordPosition(word: string, syllables: seq<string>, phonemePosition: Position, phonemeInSyllable: int)

  const EntriesA: seq<WordPosition> := [
    WordPosition("chat", ["chat"], Debut, 0),
    WordPosition("papa", ["pa", "pa"], Debut, 0),
    WordPosition("gâteau", ["gâ", "teau"], Debut, 0),
    WordPosition("table", ["ta", "ble"], Debut, 0),
    WordPosition("arbre", ["ar", "bre"], Debut, 0),
    WordPosition("maman", ["ma", "man"], Debut, 0)]

  const EntriesI: seq<WordPosition> := [
    WordPosition("lit", ["lit"], Milieu, 0),
    WordPosition("ami", ["a", "mi"], Fin, 1),
    WordPosition("souris", ["sou", "ris"], Fin, 1),
    WordPosition("midi", ["mi", "di"], Debut, 0),
    WordPosition("ici", ["i", "ci"], Debut, 0),
    WordPosition("vie", ["vie"], Milieu, 0)]

  const EntriesO: seq<WordPosition> := [
    WordPosition("pot", ["pot"], Milieu, 0),
    WordPosition("dos", ["dos"], Milieu, 0),
    WordPosition("mot", ["mot"], Milieu, 0),
    WordPosition("beau", ["beau"], Fin, 0),
    WordPosition("zoo", ["zoo"], Fin, 0),
    WordPosition("auto", ["au", "to"], Fin, 1)]

  const EntriesM: seq<WordPosition> := [
    WordPosition("maman", ["ma", "man"], Debut, 0),
    WordPosition("ami", ["a", "mi"], Debut, 1),
    WordPosition("maison", ["mai", "son"], Debut, 0),
    WordPosition("mouton", ["mou", "ton"], Debut, 0),
    WordPosition("lime", ["li", "me"], Fin, 1),
    WordPosition("plume", ["plu", "me"], Fin, 1)]

  const EntriesL: seq<WordPosition> := [
    WordPosition("lit", ["lit"], Debut, 0),
    WordPosition("lune", ["lu", "ne"], Debut, 0),
    WordPosition("table", ["ta", "ble"], Fin, 1),
    WordPosition("école", ["é", "co", "le"], Fin, 2),
    WordPosition("belle", ["bel", "le"], Fin, 1),
    WordPosition("sol", ["sol"], Fin, 0)]

  const DefaultEntries: seq<WordPosition> := [WordPosition("mot", ["mot"], Milieu, 0)]

  /** The table entry of `symbole`, before shuffling; unknown symbols get the single default word. */
  function Entries(symbole: string): seq<WordPosition> {
    if symbole == "/a/" then EntriesA
    else if symbole == "/i/" then EntriesI
    else if symbole == "/o/" then EntriesO
    else if symbole == "/m/" then EntriesM
    else if symbole == "/l/" then EntriesL
    else DefaultEntries
  }

  function Concat(ss: seq<string>): string {
    if ss == [] then "" else ss[0] + Concat(ss[1..])
  }

  /** The syllable index is valid and the syllables spell the word. */
  predicate WellFormed(e: WordPosition) {
    0 <= e.phonemeInSyllable < |e.syllables| && Concat(e.syllables) == e.word
  }

  lemma EntriesAWellFormed()
    ensures forall i :: 0 <= i < |EntriesA| ==> WellFormed(EntriesA[i])
  {
  }

  lemma EntriesIWellFormed()
    ensures forall i :: 0 <= i < |EntriesI| ==> WellFormed(EntriesI[i])
  {
  }

  lemma EntriesOWellFormed()
    ensures forall i :: 0 <= i < |EntriesO| ==> WellFormed(EntriesO[i])
  {
  }

  lemma EntriesMWellFormed()
    ensures forall i :: 0 <= i < |EntriesM| ==> WellFormed(EntriesM[i])
  {
  }

  lemma EntriesLWellFormed()
    ensures forall i :: 0 <= i < |EntriesL| ==> WellFormed(EntriesL[i])
  {
  }

  /** Every entry of every table, and the default, has a valid syllable index and syllables that spell the word. */
  lemma EntriesWellFormed(symbole: string)
    ensures forall i :: 0 <= i < |Entries(symbole)| ==> WellFormed(Entries(symbole)[i])
  {
    if symbole == "/a/" { EntriesAWellFormed(); }
    else if symbole == "/i/" { EntriesIWellFormed(); }
    else if symbole == "/o/" { EntriesOWellFormed(); }
    else if symbole == "/m/" { EntriesMWellFormed(); }
    else if symbole == "/l/" { EntriesLWellFormed(); }
    else { assert Concat(["mot"]) == "mot" + Concat([]); }
  }

  /** A known phoneme yields its six entries, any other symbol the single word 'mot'. */
  lemma EntriesSize(symbole: string)
    ensures |Entries(symbole)| == if symbole in {"/a/", "/i/", "/o/", "/m/", "/l/"} then 6 else 1
  {
  }

  /** The screen's state. */
  class Screen {
    var words: seq<WordPosition>
    var currentWordIndex: nat
    var score: nat
    var attempts: nat
    var feedback: Option<Feedback>
    var isComplete: bool

    function State(): Run
      reads this
    {
      Run(currentWordIndex, score, attempts, feedback, isComplete)
    }

    /** The screen once the phoneme is known: its entries in the order the shuffle chose. */
    constructor (symbole: string, order: seq<WordPosition>)
      requires multiset(order) == multiset(Entries(symbole))
      ensures words == order && State() == Fresh
    {
      words := order;
      currentWordIndex := 0;
      score := 0;
      attempts := 0;
      feedback := None;
      isComplete := false;
    }

    /** `handlePositionClick(k)`: right when `k` is the index of the phoneme's syllable. */
    method HandlePositionClick(clicked: int) returns (report: Option<real>)
      modifies this
      ensures var correct := old(currentWordIndex) < |words| && clicked == words[old(currentWordIndex)].phonemeInSyllable;
        Step(State(), report) == Answer(old(State()), |words|, correct)
      ensures words == old(words)
    {
      var correct := currentWordIndex < |words| && clicked == words[currentWordIndex].phonemeInSyllable;
      var s := Answer(State(), |words|, correct);
      currentWordIndex, score, attempts, feedback, isComplete := s.run.index, s.run.score, s.run.attempts, s.run.feedback, s.run.isComplete;
      report := s.report;
    }

    /** `restartActivity`: counters back to the start, the same words reshuffled into `order`. */
    method Restart(order: seq<WordPosition>)
      requires multiset(order) == multiset(words)
      modifies this
      ensures State() == Fresh && words == order
      ensures multiset(words) == multiset(old(words))
    {
      words := order;
      currentWordIndex, score, attempts, feedback, isComplete := 0, 0, 0, None, false;
    }
  }
}
