/**
 * The phoneme queries: the single-phoneme query with its `enabled` guard and
 * its fallbacks to the demo data, the list query, and the grouping of the
 * list by phase.
 */
module UsePhoneme {
  import opened Types
  import DemoData

  /** `enabled: !isNaN(id) && id > 0`; None stands for NaN. */
  predicate Enabled(id: Option<int>) {
    id.Some? && id.value > 0
  }

  /**
   * The single-phoneme query function: the backend's row when it has one;
   * otherwise (no client, an error, no row, hence the "not found" throw
   * inside the `try`) the demo lookup.
   */
  function FetchPhoneme(hasClient: bool, reply: Reply<Phoneme>, id: int): (r: Result<Phoneme>)
    ensures hasClient && reply.Data? && reply.data.Some? ==> r == Ok(reply.data.value)
    ensures !(hasClient && reply.Data? && reply.data.Some?) ==> r == DemoData.GetPhoneme(id)
  {
    if !hasClient then DemoData.GetPhoneme(id)
    else match reply
      case Failure => DemoData.GetPhoneme(id)
      case Data(None) => DemoData.GetPhoneme(id)
      case Data(Some(p)) => Ok(p)
  }

  /** Whatever goes wrong, a demo id 1..5 still yields its phoneme. */
  lemma FetchPhonemeFallsBack(hasClient: bool, reply: Reply<Phoneme>, id: int)
    requires 1 <= id <= 5
    ensures FetchPhoneme(hasClient, reply, id).Ok?
    ensures !(hasClient && reply.Data? && reply.data.Some?) ==>
      FetchPhoneme(hasClient, reply, id) == Ok(DemoData.DemoPhonemes[id - 1])
  {
    DemoData.GetPhonemeFinds(id);
  }

  /** The list query function: demo list on no client or failure, `data || []` otherwise. */
  function FetchPhonemes(hasClient: bool, reply: Reply<seq<Phoneme>>): (r: seq<Phoneme>)
    ensures !hasClient || reply.Failure? ==> r == DemoData.DemoPhonemes
    ensures hasClient && reply.Data? ==> r == reply.data.GetOr([])
  {
    if !hasClient then DemoData.DemoPhonemes
    else match reply
      case Failure => DemoData.DemoPhonemes
      case Data(d) => d.GetOr([])
  }

  // ---------------------------------------------------------------- grouping by phase

  /** The reference: the phonemes of phase `k`, in input order. */
  function OfPhase(ps: seq<Phoneme>, k: int): (r: seq<Phoneme>)
    ensures |r| <= |ps|
    ensures forall x: Phoneme :: x in r ==> x.phase == k
    ensures forall x: Phoneme :: x.phase == k ==> multiset(r)[x] == multiset(ps)[x]
  {
    if ps == [] then []
    else
      var last := ps[|ps| - 1];
      assert ps == ps[..|ps| - 1] + [last];
      OfPhase(ps[..|ps| - 1], k) + (if last.phase == k then [last] else [])
  }

  /** The accumulator the `reduce` builds: each phoneme pushed onto the group of its phase. */
  function GroupByPhase(ps: seq<Phoneme>): map<int, seq<Phoneme>> {
    if ps == [] then map[]
    else
      var g := GroupByPhase(ps[..|ps| - 1]);
      var p := ps[|ps| - 1];
      g[p.phase := (if p.phase in g then g[p.phase] else []) + [p]]
  }

  /** `phonemesByPhase`, as the reduce computes it. */
  method PhonemesByPhase(ps: seq<Phoneme>) returns (groups: map<int, seq<Phoneme>>)
    ensures groups == GroupByPhase(ps)
  {
    groups := map[];
    for i := 0 to |ps|
      invariant groups == GroupByPhase(ps[..i])
    {
      var p := ps[i];
      if p.phase !in groups {
        groups := groups[p.phase := []];
      }
      groups := groups[p.phase := groups[p.phase] + [p]];
      assert ps[..i + 1][..i] == ps[..i];
    }
    assert ps[..|ps|] == ps;
  }

  /** The groups are keyed by exactly the phases present. */
  lemma {:induction false} GroupKeys(ps: seq<Phoneme>)
    ensures forall k :: k in GroupByPhase(ps) <==> exists i :: 0 <= i < |ps| && ps[i].phase == k
  {
    if ps != [] {
      var init := ps[..|ps| - 1];
      GroupKeys(init);
      forall k ensures k in GroupByPhase(ps) <==> exists i :: 0 <= i < |ps| && ps[i].phase == k {
        if k in GroupByPhase(init) {
          var i :| 0 <= i < |init| && init[i].phase == k;
          assert ps[i].phase == k;
        }
        if exists i :: 0 <= i < |ps| && ps[i].phase == k {
          var i :| 0 <= i < |ps| && ps[i].phase == k;
          if i < |init| {
            assert init[i].phase == k;
          }
        }
      }
    }
  }

  lemma {:induction false} OfAbsentPhase(ps: seq<Phoneme>, k: int)
    requires forall i :: 0 <= i < |ps| ==> ps[i].phase != k
    ensures OfPhase(ps, k) == []
  {
    if ps != [] {
      OfAbsentPhase(ps[..|ps| - 1], k);
    }
  }

  /**
   * Each group is the input's phonemes of that phase, in input order (so
   * every phoneme is in its own group, once per occurrence), and no group is
   * empty.
   */
  lemma {:induction false} GroupsAreFilters(ps: seq<Phoneme>)
    ensures forall k :: k in GroupByPhase(ps) ==> GroupByPhase(ps)[k] == OfPhase(ps, k) && GroupByPhase(ps)[k] != []
  {
    if ps != [] {
      var init := ps[..|ps| - 1];
      var p := ps[|ps| - 1];
      GroupsAreFilters(init);
      GroupKeys(init);
      var g := GroupByPhase(init);
      if p.phase !in g {
        OfAbsentPhase(init, p.phase);
      }
    }
  }

  /** The distinct phases of `ps`, in order of first appearance. */
  function Phases(ps: seq<Phoneme>): (ks: seq<int>)
    ensures forall k :: k in ks <==> exists i :: 0 <= i < |ps| && ps[i].phase == k
    ensures forall i, j :: 0 <= i < j < |ks| ==> ks[i] != ks[j]
  {
    if ps == [] then []
    else
      var init := ps[..|ps| - 1];
      var ph := ps[|ps| - 1].phase;
      var ks := Phases(init);
      forall i | 0 <= i < |ps| ensures ps[i].phase == ph || ps[i].phase in ks {
        if i < |init| {
          assert init[i] == ps[i];
        }
      }
      if ph in ks then ks else ks + [ph]
  }

  /** The sizes of the groups named by `ks`, added up. */
  function SizeSum(g: map<int, seq<Phoneme>>, ks: seq<int>): nat
    requires forall i :: 0 <= i < |ks| ==> ks[i] in g
  {
    if ks == [] then 0 else |g[ks[0]]| + SizeSum(g, ks[1..])
  }

  lemma {:induction false} SizeSumPush(g: map<int, seq<Phoneme>>, ks: seq<int>, ph: int, p: Phoneme)
    requires forall i :: 0 <= i < |ks| ==> ks[i] in g
    requires forall i, j :: 0 <= i < j < |ks| ==> ks[i] != ks[j]
    requires ph in ks
    ensures SizeSum(g[ph := g[ph] + [p]], ks) == SizeSum(g, ks) + 1
  {
    if ks[0] != ph {
      SizeSumPush(g, ks[1..], ph, p);
    } else {
      SizeSumSame(g, g[ph := g[ph] + [p]], ks[1..]);
    }
  }

  lemma {:induction false} SizeSumSame(g: map<int, seq<Phoneme>>, h: map<int, seq<Phoneme>>, ks: seq<int>)
    requires forall i :: 0 <= i < |ks| ==> ks[i] in g && ks[i] in h && |g[ks[i]]| == |h[ks[i]]|
    ensures SizeSum(g, ks) == SizeSum(h, ks)
  {
    if ks != [] {
      SizeSumSame(g, h, ks[1..]);
    }
  }

  lemma {:induction false} SizeSumAppend(g: map<int, seq<Phoneme>>, ks: seq<int>, k: int)
    requires forall i :: 0 <= i < |ks| ==> ks[i] in g
    requires k in g
    ensures SizeSum(g, ks + [k]) == SizeSum(g, ks) + |g[k]|
  {
    if ks != [] {
      assert (ks + [k])[1..] == ks[1..] + [k];
      SizeSumAppend(g, ks[1..], k);
    }
  }

  /** The group sizes, taken over the phases present, add up to the number of phonemes. */
  lemma {:induction false} GroupSizesSum(ps: seq<Phoneme>)
    ensures forall i :: 0 <= i < |Phases(ps)| ==> Phases(ps)[i] in GroupByPhase(ps)
    ensures SizeSum(GroupByPhase(ps), Phases(ps)) == |ps|
  {
    GroupKeys(ps);
    if ps != [] {
      var init := ps[..|ps| - 1];
      var p := ps[|ps| - 1];
      var g := GroupByPhase(init);
      var ks := Phases(init);
      GroupSizesSum(init);
      GroupKeys(init);
      if p.phase in ks {
        SizeSumPush(g, ks, p.phase, p);
      } else {
        var h := GroupByPhase(ps);
        SizeSumSame(g, h, ks);
        SizeSumAppend(h, ks, p.phase);
      }
    }
  }
}
