/**
 * Two places where the arbiter of NeutronSim/Atom.py (and its older copy
 * NeutronSim/AtomManager.py) does not do what its design says, each shown on a
 * concrete arbiter: the head-of-FIFO test reads the FIFO of the class instead
 * of the atom's own, and the lists of newly arrived requests are never emptied
 * after a pass.
 */
module AtomFindings {
  import opened Wrappers
  import opened AtomState
  import opened AtomProofs

  /** `AttributeError`: the class `AtomInstance` has no attribute `link_request_queue`. */
  datatype ArbiterFault = MissingClassAttribute

  /**
   * The issue test as written (Atom.py:105-116): for the first named atom, an
   * atom in use stops the test, and a free atom makes it evaluate
   * `AtomInstance.link_request_queue[0]` (or the compute one), which raises.
   * The test only succeeds for a request that names no atom or has no type.
   */
  function CanIssueAsWritten(atoms: Atoms, w: Ticket): (r: Result<bool, ArbiterFault>)
    requires forall k :: 0 <= k < |w.resourcesId| ==> w.resourcesId[k] in atoms
    ensures r == Ok(true) <==> w.resourceType.None? || w.resourcesId == []
    ensures r.Err? <==> w.resourceType.Some? && w.resourcesId != [] && !atoms[w.resourcesId[0]].InUse(w.resourceType.value)
  {
    match w.resourceType
    case None => Ok(true)
    case Some(t) =>
      if w.resourcesId == [] then Ok(true)
      else if atoms[w.resourcesId[0]].InUse(t) then Ok(false)
      else Err(MissingClassAttribute)
  }

  /** A fresh arbiter over the single atom 0. */
  const Fresh := ArbiterState(map[0 := Idle], [], 0)

  /** An engine's request for the link of atom 0, and its release. */
  const LinkAcquire := ResourceRequest(Some(Link), Some(Acquire), [0], 1, true)
  const LinkRelease := ResourceRequest(Some(Link), Some(Release), [0], 1, false)

  lemma FreshInv()
    ensures Inv(Fresh)
    ensures BatchOk(Fresh.atoms.Keys, [LinkRelease], [LinkAcquire])
  {
    forall a, t | a in Fresh.atoms ensures Fresh.atoms[a].Queue(t) == Project(Fresh.waiting, a, t) {
      assert a == 0;
    }
  }

  /**
   * The first request for the link of a fresh atom: the intended arbiter grants
   * it in the same pass, while the test as written raises on it.
   */
  lemma FirstRequestAsWritten()
    ensures Queued(Fresh, [LinkAcquire]) == [Ticket(0, Some(Link), [0])]
    ensures CanIssueAsWritten(Registered(Fresh, [], [LinkAcquire]), Ticket(0, Some(Link), [0])) ==
      Err(MissingClassAttribute)
    ensures Ticket(0, Some(Link), [0]) in PassSpec(Fresh, [], [LinkAcquire]).issued
  {
    FreshInv();
    var ws := Queued(Fresh, [LinkAcquire]);
    assert ws == [Ticket(0, Some(Link), [0])];
    RegisteredFacts(Fresh, [], [LinkAcquire]);
    PassGrantsUncontended(Fresh, [], [LinkAcquire], 0);
  }

  /** After the first pass the granted request waits no more and ids go on from 1. */
  lemma FirstPassState()
    ensures var s1 := PassSpec(Fresh, [], [LinkAcquire]).state;
      Inv(s1) && s1.waiting == [] && s1.nextId == 1 && s1.atoms.Keys == {0}
  {
    FreshInv();
    FirstRequestAsWritten();
    var o1 := PassSpec(Fresh, [], [LinkAcquire]);
    PassPreservesInv(Fresh, [], [LinkAcquire]);
    PassConserves(Fresh, [], [LinkAcquire]);
    assert Ticket(0, Some(Link), [0]) in multiset(o1.issued);
    assert |multiset(o1.state.waiting)| == 0;
  }

  /**
   * Pending requests replayed: the pass that grants the link request leaves it
   * in the pending list as written, so the next pass (once the holder has
   * released the link) registers the same request again under a new id and
   * grants it a second time.
   */
  lemma PendingReplayedAsWritten()
    ensures Ticket(0, Some(Link), [0]) in PassSpec(Fresh, [], [LinkAcquire]).issued
    ensures var s1 := PassSpec(Fresh, [], [LinkAcquire]).state;
      Inv(s1) && BatchOk(s1.atoms.Keys, [LinkRelease], [LinkAcquire]) &&
      Ticket(1, Some(Link), [0]) in PassSpec(s1, [LinkRelease], [LinkAcquire]).issued
  {
    FirstRequestAsWritten();
    FirstPassState();
    var s1 := PassSpec(Fresh, [], [LinkAcquire]).state;
    assert BatchOk(s1.atoms.Keys, [LinkRelease], [LinkAcquire]);
    assert Queued(s1, [LinkAcquire]) == [Ticket(1, Some(Link), [0])];
    assert ReleasedBy([LinkRelease], 0, Link) by {
      assert [LinkRelease][0].resourceType == Some(Link) && 0 in [LinkRelease][0].resourcesId;
    }
    PassGrantsUncontended(s1, [LinkRelease], [LinkAcquire], 0);
  }
}
