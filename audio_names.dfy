/**
  Collision-free names for the long-term audio store (transcriber.py, the allocation loop in
  `main`). The base name is `{type}_{date}_{time}.m4a`; while a name is taken the loop probes
  `{type}_{date}_{time}_1.m4a`, `_2`, ... and keeps the first free one. The store is the set of
  file names already present in it.
*/
module AudioNames {
  import opened Text

  /** `{type}_{logical_date}_{time}`, the part every candidate shares. */
  function AudioStem(noteType: string, logicalDate: string, time: string): string
  {
    noteType + "_" + logicalDate + "_" + time
  }

  /** Candidate number `k`: the base name for 0, the name with suffix `_k` otherwise. */
  function CandidateName(stem: string, k: nat): string
  {
    if k == 0 then stem + ".m4a" else stem + "_" + Decimal(k) + ".m4a"
  }

  /** Different probe numbers never produce the same name. */
  lemma CandidateInjective(stem: string, j: nat, k: nat)
    requires CandidateName(stem, j) == CandidateName(stem, k)
    ensures j == k
  {
    var a, b := CandidateName(stem, j), CandidateName(stem, k);
    if j != 0 && k != 0 {
      var dj, dk := Decimal(j), Decimal(k);
      var lo := |stem| + 1;
      assert |dj| == |dk|;
      assert a[lo..lo + |dj|] == dj;
      assert b[lo..lo + |dk|] == dk;
      DecimalInjective(j, k);
    }
  }

  /** The names probed before probe number `k`. */
  function Probed(stem: string, k: nat): set<string>
  {
    if k == 0 then {} else Probed(stem, k - 1) + {CandidateName(stem, k - 1)}
  }

  lemma {:induction false} NotYetProbed(stem: string, k: nat, m: nat)
    requires k <= m
    ensures CandidateName(stem, m) !in Probed(stem, k)
  {
    if k > 0 {
      NotYetProbed(stem, k - 1, m);
      if CandidateName(stem, m) == CandidateName(stem, k - 1) {
        CandidateInjective(stem, m, k - 1);
      }
    }
  }

  /**
    The first probe number from `k` on whose name is free. It exists because every taken probe
    is a distinct member of the finite store.
  */
  function FirstFreeFrom(stem: string, existing: set<string>, k: nat): (r: nat)
    ensures k <= r
    ensures CandidateName(stem, r) !in existing
    ensures forall j :: k <= j < r ==> CandidateName(stem, j) in existing
    decreases |existing - Probed(stem, k)|
  {
    if CandidateName(stem, k) !in existing then k
    else
      NotYetProbed(stem, k, k);
      assert existing - Probed(stem, k + 1) == (existing - Probed(stem, k)) - {CandidateName(stem, k)};
      FirstFreeFrom(stem, existing, k + 1)
  }

  /** A taken probe leaves the first free number unchanged and one fewer store name unprobed. */
  lemma ProbeTaken(stem: string, existing: set<string>, k: nat)
    requires CandidateName(stem, k) in existing
    ensures FirstFreeFrom(stem, existing, k + 1) == FirstFreeFrom(stem, existing, k)
    ensures |existing - Probed(stem, k + 1)| < |existing - Probed(stem, k)|
  {
    NotYetProbed(stem, k, k);
    assert existing - Probed(stem, k + 1) == (existing - Probed(stem, k)) - {CandidateName(stem, k)};
  }

  /** The name the allocation loop settles on. */
  function AllocatedAudioName(stem: string, existing: set<string>): string
  {
    CandidateName(stem, FirstFreeFrom(stem, existing, 0))
  }

  /**
    The allocation loop: starts from the base name and probes `_1`, `_2`, ... while the name is
    present in the store.
  */
  method AllocateAudioName(noteType: string, logicalDate: string, time: string, existing: set<string>)
    returns (name: string)
    ensures name !in existing
    ensures name == AllocatedAudioName(AudioStem(noteType, logicalDate, time), existing)
  {
    ghost var stem := AudioStem(noteType, logicalDate, time);
    name := noteType + "_" + logicalDate + "_" + time + ".m4a";
    var counter := 1;
    while name in existing
      invariant counter >= 1
      invariant name == CandidateName(stem, counter - 1)
      invariant FirstFreeFrom(stem, existing, counter - 1) == FirstFreeFrom(stem, existing, 0)
      decreases |existing - Probed(stem, counter - 1)|
    {
      ProbeTaken(stem, existing, counter - 1);
      name := noteType + "_" + logicalDate + "_" + time + "_" + Decimal(counter) + ".m4a";
      counter := counter + 1;
    }
  }

  /**
    The allocated name is the base name when that is free, and otherwise `base_k` for the
    smallest `k >= 1` whose name is free; it is never a name already in the store.
  */
  lemma AllocatedIsSmallestFree(stem: string, existing: set<string>)
    ensures AllocatedAudioName(stem, existing) !in existing
    ensures CandidateName(stem, 0) !in existing ==> AllocatedAudioName(stem, existing) == stem + ".m4a"
    ensures CandidateName(stem, 0) in existing ==>
      exists k :: k >= 1 && AllocatedAudioName(stem, existing) == stem + "_" + Decimal(k) + ".m4a" &&
        forall j :: 1 <= j < k ==> stem + "_" + Decimal(j) + ".m4a" in existing
  {
    var k := FirstFreeFrom(stem, existing, 0);
    if CandidateName(stem, 0) in existing {
      assert k >= 1;
      forall j | 1 <= j < k
        ensures stem + "_" + Decimal(j) + ".m4a" in existing
      {
        assert CandidateName(stem, j) in existing;
      }
    }
  }

  /**
    The allocated name is the only name that is free in the store while every smaller probe is
    taken: the specification determines the allocation.
  */
  lemma AllocationDetermined(stem: string, existing: set<string>, k: nat)
    requires CandidateName(stem, k) !in existing
    requires forall j :: 0 <= j < k ==> CandidateName(stem, j) in existing
    ensures AllocatedAudioName(stem, existing) == CandidateName(stem, k)
  {
    var r := FirstFreeFrom(stem, existing, 0);
    assert r == k;
  }

  /** Two recordings with the same key: the first is stored as `base`, the second as `base_1`. */
  lemma SameKeyTwice(stem: string)
    ensures AllocatedAudioName(stem, {}) == stem + ".m4a"
    ensures AllocatedAudioName(stem, {stem + ".m4a"}) == stem + "_1.m4a"
  {
    AllocationDetermined(stem, {}, 0);
    assert CandidateName(stem, 1) != CandidateName(stem, 0) by {
      assert |CandidateName(stem, 1)| != |CandidateName(stem, 0)|;
    }
    AllocationDetermined(stem, {stem + ".m4a"}, 1);
    assert Decimal(1) == "1";
    assert CandidateName(stem, 1) == stem + "_1.m4a";
  }
}
