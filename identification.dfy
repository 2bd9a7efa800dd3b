/**
 * The "identify" exercise: words are heard one by one and the child says
 * whether the phoneme is in each. Up to six words with the phoneme and six
 * distractors are taken from constant tables keyed by the phoneme symbol,
 * shuffled, then scored by the shared state machine.
 */
module Identification {
  import opened Types
  import opened Scoring

  datatype WordStimulus = WordStimulus(word: string, hasPhoneme: bool)

  /** The words containing the phoneme; an unknown symbol gets the default list. */
  function WordsWith(symbole: string): seq<string> {
    if symbole == "/a/" then ["chat", "papa", "gâteau", "arbre", "table", "maman", "bal", "rat"]
    else if symbole == "/i/" then ["lit", "ami", "souris", "midi", "ici", "vie", "six", "nid"]
    else if symbole == "/o/" then ["pot", "dos", "mot", "beau", "zoo", "photo", "eau", "auto"]
    else if symbole == "/m/" then ["maman", "ami", "maison", "mouton", "lime", "plume", "pomme", "mime"]
    else if symbole == "/l/" then ["lit", "lune", "table", "ball", "école", "belle", "sol", "bol"]
    else ["mot", "son", "eau"]
  }

  /** The distractors, which do not contain the phoneme; an unknown symbol gets the default list. */
  function WordsWithout(symbole: string): seq<string> {
    if symbole == "/a/" then ["lit", "tes", "roi", "deux", "bois", "mer", "feu", "nez"]
    else if symbole == "/i/" then ["pot", "dos", "mot", "beau", "zoo", "chat", "eau", "auto"]
    else if symbole == "/o/" then ["lit", "ami", "ici", "vie", "six", "nid", "mer", "feu"]
    else if symbole == "/m/" then ["pot", "dos", "lit", "chat", "eau", "auto", "roi", "nez"]
    else if symbole == "/l/" then ["pot", "ami", "chat", "roi", "deux", "mer", "feu", "nez"]
    else ["roi", "nez", "deux"]
  }

  predicate Known(symbole: string) {
    symbole in {"/a/", "/i/", "/o/", "/m/", "/l/"}
  }

  function Take(s: seq<string>, k: nat): (r: seq<string>)
    ensures |r| == if |s| < k then |s| else k
    ensures r == s[..|r|]
  {
    if |s| < k then s else s[..k]
  }

  function Flagged(ws: seq<string>, flag: bool): (r: seq<WordStimulus>)
    ensures |r| == |ws|
    ensures forall i :: 0 <= i < |ws| ==> r[i] == WordStimulus(ws[i], flag)
  {
    if ws == [] then [] else [WordStimulus(ws[0], flag)] + Flagged(ws[1..], flag)
  }

  /** The list before shuffling: the first six words with the phoneme, then the first six distractors. */
  function Selection(symbole: string): (r: seq<WordStimulus>)
    ensures var k := |Take(WordsWith(symbole), 6)|;
      && |r| == k + |Take(WordsWithout(symbole), 6)|
      && (forall i :: 0 <= i < k ==> r[i] == WordStimulus(WordsWith(symbole)[i], true))
      && (forall i :: k <= i < |r| ==> r[i] == WordStimulus(WordsWithout(symbole)[i - k], false))
  {
    Flagged(Take(WordsWith(symbole), 6), true) + Flagged(Take(WordsWithout(symbole), 6), false)
  }

  /** Twelve words for a known phoneme, six (three and three) for any other symbol. */
  lemma SelectionSize(symbole: string)
    ensures |Selection(symbole)| == if Known(symbole) then 12 else 6
  {
  }

  predicate Disjoint(a: seq<string>, b: seq<string>) {
    forall i, j :: 0 <= i < |a| && 0 <= j < |b| ==> a[i] != b[j]
  }

  lemma DisjointA()
    ensures Disjoint(WordsWith("/a/"), WordsWithout("/a/"))
  {
  }

  lemma DisjointI()
    ensures Disjoint(WordsWith("/i/"), WordsWithout("/i/"))
  {
  }

  lemma DisjointO()
    ensures Disjoint(WordsWith("/o/"), WordsWithout("/o/"))
  {
  }

  lemma DisjointM()
    ensures Disjoint(WordsWith("/m/"), WordsWithout("/m/"))
  {
  }

  lemma DisjointL()
    ensures Disjoint(WordsWith("/l/"), WordsWithout("/l/"))
  {
  }

  /** For each table key and for the defaults, no word is both a phoneme word and a distractor. */
  lemma TablesDisjoint(symbole: string)
    ensures Disjoint(WordsWith(symbole), WordsWithout(symbole))
  {
    if symbole == "/a/" { DisjointA(); }
    else if symbole == "/i/" { DisjointI(); }
    else if symbole == "/o/" { DisjointO(); }
    else if symbole == "/m/" { DisjointM(); }
    else if symbole == "/l/" { DisjointL(); }
  }

  /** So every selected word's flag says truly which list it came from. */
  lemma SelectionFlagsTrue(symbole: string)
    ensures forall i :: 0 <= i < |Selection(symbole)| ==>
      (Selection(symbole)[i].hasPhoneme <==> Selection(symbole)[i].word in WordsWith(symbole))
  {
    TablesDisjoint(symbole);
    var k := |Take(WordsWith(symbole), 6)|;
    var r := Selection(symbole);
    forall i | 0 <= i < |r|
      ensures r[i].hasPhoneme <==> r[i].word in WordsWith(symbole)
    {
      if i >= k {
        assert r[i].word == WordsWithout(symbole)[i - k];
        assert forall j :: 0 <= j < |WordsWith(symbole)| ==> WordsWith(symbole)[j] != r[i].word;
      }
    }
  }

  /** The screen's state. */
  class Screen {
    var words: seq<WordStimulus>
    var currentWordIndex: nat
    var score: nat
    var attempts: nat
    var feedback: Option<Feedback>
    var isComplete: bool

    function State(): Run
      reads this
    {
      Run(currentWordIndex, score, attempts, feedback, isComplete)
    }

    /**
     * The screen once the phoneme is known: the selection in the order the
     * shuffle chose (`order` is that order, a permutation of the selection).
     */
    constructor (symbole: string, order: seq<WordStimulus>)
      requires multiset(order) == multiset(Selection(symbole))
      ensures words == order && State() == Fresh
    {
      words := order;
      currentWordIndex := 0;
      score := 0;
      attempts := 0;
      feedback := None;
      isComplete := false;
    }

    /** `handleAnswer(answer)`: right when the answer matches the word's flag. */
    method HandleAnswer(answer: bool) returns (report: Option<real>)
      modifies this
      ensures var correct := old(currentWordIndex) < |words| && answer == words[old(currentWordIndex)].hasPhoneme;
        Step(State(), report) == Answer(old(State()), |words|, correct)
      ensures words == old(words)
    {
      var correct := currentWordIndex < |words| && answer == words[currentWordIndex].hasPhoneme;
      var s := Answer(State(), |words|, correct);
      currentWordIndex, score, attempts, feedback, isComplete := s.run.index, s.run.score, s.run.attempts, s.run.feedback, s.run.isComplete;
      report := s.report;
    }

    /** `restartActivity`: counters back to the start, the same words reshuffled into `order`. */
    method Restart(order: seq<WordStimulus>)
      requires multiset(order) == multiset(words)
      modifies this
      ensures State() == Fresh && words == order
      ensures multiset(words) == multiset(old(words))
    {
      words := order;
      currentWordIndex, score, attempts, feedback, isComplete := 0, 0, 0, None, false;
    }
  }
}
