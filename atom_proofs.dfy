/**
 * Properties of the arbitration pass of NeutronSim/Atom.py (the same algorithm as
 * NeutronSim/AtomManager.py): per-atom FIFO order, all-or-nothing gang grants,
 * exclusivity, conservation of requests, and the invariant every pass keeps.
 */
module AtomProofs {
  import opened Wrappers
  import opened AtomState

  // ---------------------------------------------------------------------------
  // Per-id loops over the atom table

  /** The rewrite one per-id loop applies to each atom it visits. */
  datatype AtomOp = ClearOp(t: ResourceType) | EnqueueOp(t: ResourceType, id: ReqId) | PopOp(t: ResourceType)

  ghost function ApplyOp(op: AtomOp, atom: AtomInstance): AtomInstance {
    match op
    case ClearOp(t) => atom.WithCurrent(t, None)
    case EnqueueOp(t, id) => atom.Enqueue(t, id)
    case PopOp(t) => if atom.Queue(t) == [] then atom else atom.PopToCurrent(t)
  }

  /** after is before with op applied to the atoms in ids and nothing else. */
  ghost predicate AppliedOn(before: Atoms, after: Atoms, op: AtomOp, ids: seq<AtomId>) {
    after.Keys == before.Keys &&
    forall a :: a in before ==> after[a] == if a in ids then ApplyOp(op, before[a]) else before[a]
  }

  lemma AppliedOnNone(before: Atoms, op: AtomOp)
    ensures AppliedOn(before, before, op, [])
  {
  }

  lemma AppliedOnStep(before: Atoms, after: Atoms, op: AtomOp, ids: seq<AtomId>, x: AtomId)
    requires AppliedOn(before, after, op, ids) && x in before && x !in ids
    ensures AppliedOn(before, after[x := ApplyOp(op, after[x])], op, ids + [x])
  {
  }

  /** Clearing a holder twice is clearing it once, so repeated release ids are harmless. */
  lemma AppliedOnClearAgain(before: Atoms, after: Atoms, t: ResourceType, ids: seq<AtomId>, x: AtomId)
    requires AppliedOn(before, after, ClearOp(t), ids) && x in before
    ensures AppliedOn(before, after[x := ApplyOp(ClearOp(t), after[x])], ClearOp(t), ids + [x])
  {
    if x in ids {
      assert ApplyOp(ClearOp(t), ApplyOp(ClearOp(t), before[x])) == ApplyOp(ClearOp(t), before[x]) by {
        match t
        case Link =>
        case Compute =>
      }
    }
  }

  lemma AppliedOnClear(before: Atoms, after: Atoms, rt: Option<ResourceType>, ids: seq<AtomId>)
    requires rt.Some? ==> forall x <- ids :: x in before
    requires rt.Some? ==> AppliedOn(before, after, ClearOp(rt.value), ids)
    requires rt.None? ==> after == before
    ensures after == ClearHolders(before, rt, ids)
  {
    var target := ClearHolders(before, rt, ids);
    assert forall a :: a in target ==> after[a] == target[a];
  }

  lemma AppliedOnEnqueue(before: Atoms, after: Atoms, w: Ticket)
    requires TicketOk(before.Keys, w)
    requires w.resourceType.Some? ==> AppliedOn(before, after, EnqueueOp(w.resourceType.value, w.id), w.resourcesId)
    requires w.resourceType.None? ==> after == before
    ensures after == RegisterTicket(before, w)
  {
    var target := RegisterTicket(before, w);
    if w.resourceType.Some? {
      assert target == EnqueueAll(before, w.resourceType.value, w.id, w.resourcesId);
      assert forall a :: a in target ==> after[a] == target[a];
    }
  }

  lemma AppliedOnGrant(before: Atoms, after: Atoms, w: Ticket)
    requires TicketOk(before.Keys, w) && CanIssue(before, w)
    requires w.resourceType.Some? ==> AppliedOn(before, after, PopOp(w.resourceType.value), w.resourcesId)
    requires w.resourceType.None? ==> after == before
    ensures after == Grant(before, w)
  {
    var target := Grant(before, w);
    if w.resourceType.Some? {
      assert target == GrantIds(before, w.resourceType.value, w.resourcesId);
      assert forall a :: a in target ==> after[a] == target[a];
    }
  }

  // ---------------------------------------------------------------------------
  // Projections of the waiting list onto one atom's FIFO

  lemma {:induction false} ProjectAppend(x: seq<Ticket>, y: seq<Ticket>, a: AtomId, t: ResourceType)
    ensures Project(x + y, a, t) == Project(x, a, t) + Project(y, a, t)
    decreases |y|
  {
    if y == [] {
      assert x + y == x;
    } else {
      var init := y[..|y| - 1];
      assert (x + y)[..|x + y| - 1] == x + init;
      assert (x + y)[|x + y| - 1] == y[|y| - 1];
      ProjectAppend(x, init, a, t);
    }
  }

  lemma ProjectSingle(w: Ticket, a: AtomId, t: ResourceType)
    ensures Project([w], a, t) == if Names(w, a, t) then [w.id] else []
  {
    assert [w][..0] == [];
  }

  /** Every id of a projection belongs to a ticket of the list that names the atom. */
  lemma {:induction false} ProjectFrom(ws: seq<Ticket>, a: AtomId, t: ResourceType)
    ensures forall id <- Project(ws, a, t) :: exists w <- ws :: Names(w, a, t) && w.id == id
    ensures Project(ws, a, t) != [] ==> exists w <- ws :: Names(w, a, t) && w.id == Project(ws, a, t)[0]
    decreases |ws|
  {
    if ws != [] {
      assert Project(ws, a, t) != [] ==> Project(ws, a, t)[0] in Project(ws, a, t);
      var init := ws[..|ws| - 1];
      var last := ws[|ws| - 1];
      ProjectFrom(init, a, t);
      forall id <- Project(ws, a, t) ensures exists w <- ws :: Names(w, a, t) && w.id == id {
        if id in Project(init, a, t) {
          var w :| w in init && Names(w, a, t) && w.id == id;
          assert w in ws;
        } else {
          assert last in ws;
        }
      }
    }
  }

  /** A ticket naming the atom appears in the projection. */
  lemma {:induction false} ProjectHas(ws: seq<Ticket>, w: Ticket, a: AtomId, t: ResourceType)
    requires w in ws && Names(w, a, t)
    ensures w.id in Project(ws, a, t)
    decreases |ws|
  {
    var init := ws[..|ws| - 1];
    if w != ws[|ws| - 1] {
      assert ws == init + [ws[|ws| - 1]];
      assert w in init;
      ProjectHas(init, w, a, t);
    }
  }

  // ---------------------------------------------------------------------------
  // Arrival order

  lemma IncreasingUnique(ws: seq<Ticket>, x: Ticket, y: Ticket)
    requires Increasing(ws) && x in ws && y in ws && x.id == y.id
    ensures x == y
  {
    var i :| 0 <= i < |ws| && ws[i] == x;
    var j :| 0 <= j < |ws| && ws[j] == y;
    assert i == j;
  }

  lemma LastNotEarlier(ws: seq<Ticket>)
    requires Increasing(ws) && ws != []
    ensures ws[|ws| - 1] !in ws[..|ws| - 1]
    ensures forall x <- ws[..|ws| - 1] :: x.id < ws[|ws| - 1].id
  {
    forall x <- ws[..|ws| - 1] ensures x.id < ws[|ws| - 1].id {
      var k :| 0 <= k < |ws| - 1 && ws[..|ws| - 1][k] == x;
      assert ws[k] == x;
    }
  }

  lemma SliceSnoc<T>(s: seq<T>, k: nat)
    requires k < |s|
    ensures s[..k + 1] == s[..k] + [s[k]]
  {
  }

  lemma IncreasingNotEarlier(s: seq<Ticket>, k: nat)
    requires Increasing(s) && k < |s|
    ensures s[k] !in s[..k]
  {
    forall j | 0 <= j < k ensures s[..k][j] != s[k] {
      assert s[..k][j] == s[j];
    }
  }

  lemma IncreasingParts(x: seq<Ticket>, y: seq<Ticket>)
    requires Increasing(x + y)
    ensures Increasing(x) && Increasing(y)
    ensures forall u <- x, v <- y :: u.id < v.id
  {
    var s := x + y;
    forall i, j | 0 <= i < j < |x| ensures x[i].id < x[j].id {
      assert s[i] == x[i] && s[j] == x[j];
    }
    forall i, j | 0 <= i < j < |y| ensures y[i].id < y[j].id {
      assert s[|x| + i] == y[i] && s[|x| + j] == y[j];
    }
    forall u <- x, v <- y ensures u.id < v.id {
      var i :| 0 <= i < |x| && x[i] == u;
      var j :| 0 <= j < |y| && y[j] == v;
      assert s[i] == u && s[|x| + j] == v;
    }
  }

  lemma IncreasingJoin(x: seq<Ticket>, y: seq<Ticket>)
    requires Increasing(x) && Increasing(y)
    requires forall u <- x, v <- y :: u.id < v.id
    ensures Increasing(x + y)
  {
    var s := x + y;
    forall i, j | 0 <= i < j < |s| ensures s[i].id < s[j].id {
      if j < |x| {
        assert s[i] == x[i] && s[j] == x[j];
      } else if i >= |x| {
        assert s[i] == y[i - |x|] && s[j] == y[j - |x|];
      } else {
        assert s[i] == x[i] && s[j] == y[j - |x|];
      }
    }
  }

  /** Dropping issued tickets from a prefix keeps the arrival order. */
  lemma IncreasingWithout(ws: seq<Ticket>, iss: seq<Ticket>, rest: seq<Ticket>)
    requires Increasing(ws + rest)
    ensures Increasing(Without(ws, iss) + rest)
  {
    IncreasingParts(ws, rest);
    IncreasingJoin(Without(ws, iss), rest);
  }

  lemma {:induction false} WithoutNone(ws: seq<Ticket>)
    ensures Without(ws, []) == ws
    decreases |ws|
  {
    if ws != [] {
      var init := ws[..|ws| - 1];
      assert ws == init + [ws[|ws| - 1]];
      WithoutNone(init);
      WithoutSnoc(init, ws[|ws| - 1], []);
    }
  }

  lemma {:induction false} WithoutExtra(ws: seq<Ticket>, iss: seq<Ticket>, x: Ticket)
    requires x !in ws
    ensures Without(ws, iss + [x]) == Without(ws, iss)
    decreases |ws|
  {
    if ws != [] {
      var init := ws[..|ws| - 1];
      assert ws == init + [ws[|ws| - 1]];
      WithoutExtra(init, iss, x);
    }
  }

  // ---------------------------------------------------------------------------
  // The issue scan

  /** Issued tickets come from the waiting list, and in its order. */
  lemma {:induction false} ScanIssuedFrom(atoms: Atoms, ws: seq<Ticket>)
    requires forall w <- ws :: TicketOk(atoms.Keys, w)
    ensures forall x <- Scan(atoms, ws).issued :: x in ws
    ensures Increasing(ws) ==> Increasing(Scan(atoms, ws).issued)
    decreases |ws|
  {
    if ws != [] {
      var init := ws[..|ws| - 1];
      var w := ws[|ws| - 1];
      assert ws == init + [w];
      ScanIssuedFrom(atoms, init);
      var prior := Scan(atoms, init);
      assert w in ws && TicketOk(prior.atoms.Keys, w);
      if Increasing(ws) {
        IncreasingParts(init, [w]);
        if CanIssue(prior.atoms, w) {
          IncreasingJoin(prior.issued, [w]);
        }
      }
    }
  }

  /** The scan over a prefix issues a prefix of what the whole scan issues. */
  lemma {:induction false} ScanPrefix(atoms: Atoms, ws: seq<Ticket>, k: nat)
    requires forall w <- ws :: TicketOk(atoms.Keys, w)
    requires k <= |ws|
    ensures Scan(atoms, ws[..k]).issued <= Scan(atoms, ws).issued
    ensures forall p :: |Scan(atoms, ws[..k]).issued| <= p < |Scan(atoms, ws).issued| ==>
      Scan(atoms, ws).issued[p] in ws[k..]
    decreases |ws|
  {
    if k == |ws| {
      assert ws[..k] == ws;
    } else {
      var init := ws[..|ws| - 1];
      assert init[..k] == ws[..k];
      ScanPrefix(atoms, init, k);
      assert forall x <- init[k..] :: x in ws[k..] by {
        forall x <- init[k..] ensures x in ws[k..] {
          var i :| 0 <= i < |init[k..]| && init[k..][i] == x;
          assert ws[k..][i] == x;
        }
      }
      assert ws[|ws| - 1] == ws[k..][|ws| - 1 - k];
    }
  }

  /** A ticket at the head of an atom's FIFO has no earlier waiter for it. */
  lemma HeadHasNoEarlier(r: seq<Ticket>, w: Ticket, rest: seq<Ticket>, a: AtomId, t: ResourceType)
    requires Increasing(r + [w] + rest)
    requires Project(r + [w] + rest, a, t) != [] && Project(r + [w] + rest, a, t)[0] == w.id
    ensures Project(r, a, t) == []
  {
    ProjectAppend(r + [w], rest, a, t);
    ProjectAppend(r, [w], a, t);
    ProjectFrom(r, a, t);
    assert r + [w] + rest == r + ([w] + rest);
    IncreasingParts(r, [w] + rest);
    assert w in [w] + rest;
  }

  /** One atom after a grant: its FIFO is the projection of the others. */
  lemma StepGrantQueue(before: AtomInstance, after: AtomInstance, r: seq<Ticket>, w: Ticket, rest: seq<Ticket>,
                       a: AtomId, t: ResourceType)
    requires Increasing(r + [w] + rest)
    requires before.Queue(t) == Project(r + [w] + rest, a, t)
    requires Names(w, a, t) ==> before.Queue(t) != [] && before.Queue(t)[0] == w.id
    requires after.Queue(t) == if Names(w, a, t) then before.Queue(t)[1..] else before.Queue(t)
    ensures after.Queue(t) == Project(r + rest, a, t)
  {
    ProjectAppend(r + [w], rest, a, t);
    ProjectAppend(r, [w], a, t);
    ProjectAppend(r, rest, a, t);
    ProjectSingle(w, a, t);
    if Names(w, a, t) {
      HeadHasNoEarlier(r, w, rest, a, t);
    }
  }

  /** A granted ticket leaves its atoms' FIFOs equal to the projection of the rest. */
  lemma StepGrantQueues(atoms: Atoms, r: seq<Ticket>, w: Ticket, rest: seq<Ticket>)
    requires TicketOk(atoms.Keys, w)
    requires Increasing(r + [w] + rest)
    requires QueuesMatch(atoms, r + [w] + rest)
    requires CanIssue(atoms, w)
    ensures QueuesMatch(Grant(atoms, w), r + rest)
  {
    var g := Grant(atoms, w);
    forall a, t | a in g ensures g[a].Queue(t) == Project(r + rest, a, t) {
      if Names(w, a, t) {
        assert a in w.resourcesId;
      }
      StepGrantQueue(atoms[a], g[a], r, w, rest, a, t);
    }
  }

  /**
   * During the scan, each atom's FIFO is the projection of the tickets still
   * waiting: those not issued so far, followed by those not yet reached.
   */
  lemma {:induction false} ScanQueues(atoms: Atoms, ws: seq<Ticket>, rest: seq<Ticket>)
    requires forall w <- ws :: TicketOk(atoms.Keys, w)
    requires Increasing(ws + rest)
    requires QueuesMatch(atoms, ws + rest)
    ensures QueuesMatch(Scan(atoms, ws).atoms, Without(ws, Scan(atoms, ws).issued) + rest)
    decreases |ws|
  {
    if ws == [] {
      assert ws + rest == Without(ws, []) + rest;
    } else {
      var init := ws[..|ws| - 1];
      var w := ws[|ws| - 1];
      assert ws == init + [w];
      assert ws + rest == init + ([w] + rest);
      ScanQueues(atoms, init, [w] + rest);
      var prior := Scan(atoms, init);
      var left := Without(init, prior.issued);
      assert w in ws && TicketOk(prior.atoms.Keys, w);
      assert left + ([w] + rest) == left + [w] + rest;
      ScanIssuedFrom(atoms, init);
      IncreasingParts(ws, rest);
      LastNotEarlier(ws);
      assert w !in prior.issued;
      if CanIssue(prior.atoms, w) {
        WithoutExtra(init, prior.issued, w);
        assert Without(ws, prior.issued + [w]) == left;
        IncreasingWithout(init, prior.issued, [w] + rest);
        StepGrantQueues(prior.atoms, left, w, rest);
      } else {
        assert Without(ws, prior.issued) == left + [w];
      }
    }
  }

  /** Ticket w had resource t of atom a among the issued ones. */
  ghost predicate HeldBy(iss: seq<Ticket>, a: AtomId, t: ResourceType, h: Option<ReqId>) {
    exists w <- iss :: Names(w, a, t) && h == Some(w.id)
  }

  /**
   * Exclusivity and all-or-nothing within a scan: a holder changes only from
   * empty, and only to an issued ticket that names the atom; and every issued
   * ticket still holds every atom it named when the scan ends.
   */
  lemma {:induction false} ScanHolders(atoms: Atoms, ws: seq<Ticket>)
    requires forall w <- ws :: TicketOk(atoms.Keys, w)
    ensures forall a, t :: a in atoms ==>
      Scan(atoms, ws).atoms[a].Current(t) == atoms[a].Current(t) ||
      (atoms[a].Current(t) == None && HeldBy(Scan(atoms, ws).issued, a, t, Scan(atoms, ws).atoms[a].Current(t)))
    ensures forall w, a, t :: w in Scan(atoms, ws).issued && a in atoms && Names(w, a, t) ==>
      Scan(atoms, ws).atoms[a].Current(t) == Some(w.id)
    decreases |ws|
  {
    if ws != [] {
      var init := ws[..|ws| - 1];
      var w := ws[|ws| - 1];
      assert ws == init + [w];
      ScanHolders(atoms, init);
      var prior := Scan(atoms, init);
      assert w in ws && TicketOk(prior.atoms.Keys, w);
      if CanIssue(prior.atoms, w) {
        var g := Grant(prior.atoms, w);
        var iss := prior.issued + [w];
        forall a, t | a in atoms
          ensures g[a].Current(t) == atoms[a].Current(t) ||
            (atoms[a].Current(t) == None && HeldBy(iss, a, t, g[a].Current(t)))
        {
          if Names(w, a, t) {
            assert a in w.resourcesId;
            assert !prior.atoms[a].InUse(t);
            assert w in iss;
            if !HeldBy(prior.issued, a, t, prior.atoms[a].Current(t)) {
              assert prior.atoms[a].Current(t) == atoms[a].Current(t);
            }
          } else if HeldBy(prior.issued, a, t, prior.atoms[a].Current(t)) {
            var u :| u in prior.issued && Names(u, a, t) && prior.atoms[a].Current(t) == Some(u.id);
            assert u in iss;
          }
        }
        forall u, a, t | u in iss && a in atoms && Names(u, a, t) ensures g[a].Current(t) == Some(u.id) {
          if u != w {
            assert u in prior.issued;
          }
        }
      }
    }
  }

  /** One more ticket, either issued or left waiting, keeps a partition a partition. */
  lemma PartitionStep(issued: seq<Ticket>, left: seq<Ticket>, ws: seq<Ticket>, w: Ticket,
                      issued': seq<Ticket>, left': seq<Ticket>)
    requires multiset(issued) + multiset(left) == multiset(ws)
    requires (issued' == issued + [w] && left' == left) || (issued' == issued && left' == left + [w])
    ensures multiset(issued') + multiset(left') == multiset(ws + [w])
  {
    assert multiset(ws + [w]) == multiset(ws) + multiset{w};
  }

  /** Issued tickets and those left waiting together are exactly the waiting list. */
  lemma {:induction false} ScanPartition(atoms: Atoms, ws: seq<Ticket>)
    requires forall w <- ws :: TicketOk(atoms.Keys, w)
    requires Increasing(ws)
    ensures multiset(Scan(atoms, ws).issued) + multiset(Without(ws, Scan(atoms, ws).issued)) == multiset(ws)
    decreases |ws|
  {
    if ws != [] {
      var init := ws[..|ws| - 1];
      var w := ws[|ws| - 1];
      assert ws == init + [w];
      IncreasingParts(init, [w]);
      ScanPartition(atoms, init);
      ScanIssuedFrom(atoms, init);
      LastNotEarlier(ws);
      var prior := Scan(atoms, init);
      var left := Without(init, prior.issued);
      assert w in ws && TicketOk(prior.atoms.Keys, w);
      assert w !in prior.issued;
      var full := Scan(atoms, ws);
      if CanIssue(prior.atoms, w) {
        assert full.issued == prior.issued + [w];
        WithoutExtra(init, prior.issued, w);
        assert Without(ws, full.issued) == left;
      } else {
        assert full.issued == prior.issued;
        assert Without(ws, full.issued) == left + [w];
      }
      PartitionStep(prior.issued, left, init, w, full.issued, Without(ws, full.issued));
    }
  }

  /** The scan over one more ticket tests that ticket against the scan so far. */
  lemma ScanSnoc(atoms: Atoms, ws: seq<Ticket>, k: nat)
    requires forall w <- ws :: TicketOk(atoms.Keys, w)
    requires k < |ws|
    ensures TicketOk(Scan(atoms, ws[..k]).atoms.Keys, ws[k])
    ensures var prior := Scan(atoms, ws[..k]);
      Scan(atoms, ws[..k + 1]) ==
        if CanIssue(prior.atoms, ws[k]) then ScanResult(Grant(prior.atoms, ws[k]), prior.issued + [ws[k]]) else prior
  {
    assert ws[k] in ws;
    assert forall u <- ws[..k + 1] :: u in ws;
    assert ws[..k + 1][..k] == ws[..k] && ws[..k + 1][k] == ws[k];
  }

  /** At its turn during the scan, every FIFO a waiting ticket names is non-empty. */
  lemma QueuedAtTurn(atoms: Atoms, ws: seq<Ticket>, k: nat)
    requires forall w <- ws :: TicketOk(atoms.Keys, w)
    requires Increasing(ws) && QueuesMatch(atoms, ws)
    requires k < |ws|
    ensures forall a, t :: a in atoms && Names(ws[k], a, t) ==> Scan(atoms, ws[..k]).atoms[a].Queue(t) != []
  {
    var w := ws[k];
    assert forall u <- ws[..k] :: u in ws;
    assert ws[..k] + ws[k..] == ws;
    ScanQueues(atoms, ws[..k], ws[k..]);
    var left := Without(ws[..k], Scan(atoms, ws[..k]).issued) + ws[k..];
    assert w in left by {
      assert ws[k..][0] == w;
    }
    forall a, t | a in atoms && Names(w, a, t) ensures Scan(atoms, ws[..k]).atoms[a].Queue(t) != [] {
      ProjectHas(left, w, a, t);
    }
  }

  /** Notifying one more ticket appends one entry per atom it names. */
  lemma NotificationsSnoc(iss: seq<Ticket>, w: Ticket)
    ensures Notifications(iss + [w]) == Notifications(iss) + seq(|w.resourcesId|, _ => w.id)
  {
    assert (iss + [w])[..|iss|] == iss;
  }

  /** Registering one more ticket registers it on the table so far. */
  lemma RegisterTicketsSnoc(atoms: Atoms, ts: seq<Ticket>, k: nat)
    requires forall j :: 0 <= j < |ts| ==> TicketOk(atoms.Keys, ts[j])
    requires k < |ts|
    ensures RegisterTickets(atoms, ts[..k + 1]) == RegisterTicket(RegisterTickets(atoms, ts[..k]), ts[k])
  {
    assert ts[..k + 1][..k] == ts[..k] && ts[..k + 1][k] == ts[k];
  }

  /** A ticket issued by the scan passed the issue test at its own turn. */
  lemma IssuedAtTurn(atoms: Atoms, ws: seq<Ticket>, j: nat)
    requires forall w <- ws :: TicketOk(atoms.Keys, w)
    requires Increasing(ws)
    requires j < |ws| && ws[j] in Scan(atoms, ws).issued
    ensures TicketOk(Scan(atoms, ws[..j]).atoms.Keys, ws[j]) && CanIssue(Scan(atoms, ws[..j]).atoms, ws[j])
  {
    var full := Scan(atoms, ws);
    ScanPrefix(atoms, ws, j + 1);
    var upTo := Scan(atoms, ws[..j + 1]);
    assert ws[j] in upTo.issued by {
      var p :| 0 <= p < |full.issued| && full.issued[p] == ws[j];

    }
    var before := ws[..j];
    assert ws[..j + 1][..j] == before;
    assert ws[..j + 1][j] == ws[j];
    assert ws[j] in ws;
    var prior := Scan(atoms, before);
    ScanIssuedFrom(atoms, before);
    assert ws[j] !in before;
  }

  /**
   * A ticket still waiting after a scan prefix keeps every later ticket that
   * names the same resource away from the head of that atom's FIFO.
   */
  lemma WaiterBlocks(atoms: Atoms, before: seq<Ticket>, rest: seq<Ticket>, x: Ticket, a: AtomId, t: ResourceType)
    requires forall w <- before :: TicketOk(atoms.Keys, w)
    requires Increasing(before + rest) && QueuesMatch(atoms, before + rest)
    requires rest != [] && a in atoms
    requires x in before && Names(x, a, t) && x !in Scan(atoms, before).issued
    ensures Scan(atoms, before).atoms[a].Queue(t) != []
    ensures Scan(atoms, before).atoms[a].Queue(t)[0] < rest[0].id
  {
    ScanQueues(atoms, before, rest);
    var left := Without(before, Scan(atoms, before).issued);
    ProjectHas(left, x, a, t);
    ProjectAppend(left, rest, a, t);
    ProjectFrom(left, a, t);
    var head := Project(left, a, t)[0];
    assert head in Project(left, a, t);
    var u :| u in left && Names(u, a, t) && u.id == head;
    IncreasingParts(before, rest);
    assert rest[0] in rest;
  }

  /**
   * FIFO order on an atom: if a later ticket on an atom is issued, every earlier
   * ticket for the same resource of that atom was issued before its turn came.
   */
  lemma ScanFair(atoms: Atoms, ws: seq<Ticket>, i: nat, j: nat, a: AtomId, t: ResourceType)
    requires forall w <- ws :: TicketOk(atoms.Keys, w)
    requires Increasing(ws)
    requires QueuesMatch(atoms, ws)
    requires i < j < |ws| && Names(ws[i], a, t) && Names(ws[j], a, t)
    requires ws[j] in Scan(atoms, ws).issued
    ensures ws[i] in Scan(atoms, ws[..j]).issued
  {
    IssuedAtTurn(atoms, ws, j);
    var before := ws[..j];
    assert forall w <- before :: w in ws;
    if ws[i] !in Scan(atoms, before).issued {
      assert before + ws[j..] == ws;
      assert ws[j..][0] == ws[j];
      assert ws[i] in before;
      assert ws[j] in ws;
      WaiterBlocks(atoms, before, ws[j..], ws[i], a, t);
    }
  }

  lemma RemoveAppend<T>(p: seq<T>, w: T, x: T)
    requires x in p
    ensures Remove(p + [w], x) == Remove(p, x) + [w]
  {
    var i := IndexOf(p, x);
    var k := IndexOf(p + [w], x);
    assert (p + [w])[..i] == p[..i];
    assert (p + [w])[i] == x;
    assert (p + [w])[i + 1..] == p[i + 1..] + [w];
  }

  lemma RemoveLast<T>(p: seq<T>, x: T)
    requires x !in p
    ensures Remove(p + [x], x) == p
  {
    var k := IndexOf(p + [x], x);
    assert (p + [x])[..|p|] == p;
  }

  lemma WithoutSnoc(init: seq<Ticket>, w: Ticket, iss: seq<Ticket>)
    ensures Without(init + [w], iss) == Without(init, iss) + (if w in iss then [] else [w])
  {
    assert (init + [w])[..|init|] == init;
  }

  /** The removal loop: deleting one more issued ticket from what is left. */
  lemma {:induction false} WithoutOneMore(ws: seq<Ticket>, iss: seq<Ticket>, x: Ticket)
    requires Increasing(ws)
    requires x in Without(ws, iss)
    ensures Without(ws, iss + [x]) == Remove(Without(ws, iss), x)
    decreases |ws|
  {
    var init := ws[..|ws| - 1];
    var w := ws[|ws| - 1];
    assert ws == init + [w];
    var prior := Without(init, iss);
    WithoutSnoc(init, w, iss);
    WithoutSnoc(init, w, iss + [x]);
    assert w in iss + [x] <==> w in iss || w == x;
    if w == x {
      LastNotEarlier(ws);
      WithoutExtra(init, iss, x);
      assert Without(ws, iss + [x]) == prior;
      assert Without(ws, iss) == prior + [x];
      RemoveLast(prior, x);
    } else {
      assert x in prior;
      IncreasingParts(init, [w]);
      WithoutOneMore(init, iss, x);
      if w in iss {
        assert Without(ws, iss + [x]) == Without(init, iss + [x]);
        assert Without(ws, iss) == prior;
      } else {
        assert Without(ws, iss + [x]) == Without(init, iss + [x]) + [w];
        assert Without(ws, iss) == prior + [w];
        RemoveAppend(prior, w, x);
      }
    }
  }

  // ---------------------------------------------------------------------------
  // Notifications

  /** A granted request is notified exactly when it names at least one atom. */
  lemma {:induction false} NotificationsOf(iss: seq<Ticket>, id: ReqId)
    ensures id in Notifications(iss) <==> exists w <- iss :: w.id == id && w.resourcesId != []
    decreases |iss|
  {
    if iss != [] {
      var init := iss[..|iss| - 1];
      var w := iss[|iss| - 1];
      assert iss == init + [w];
      NotificationsOf(init, id);
      var tail := seq(|w.resourcesId|, _ => w.id);
      assert id in tail <==> w.id == id && w.resourcesId != [] by {
        if w.id == id && w.resourcesId != [] {
          assert tail[0] == id;
        }
      }
      if exists u <- init :: u.id == id && u.resourcesId != [] {
        var u :| u in init && u.id == id && u.resourcesId != [];
        assert u in iss;
      }
    }
  }

  // ---------------------------------------------------------------------------
  // Whole passes

  lemma {:induction false} ProjectNone(ws: seq<Ticket>, a: AtomId, t: ResourceType)
    requires forall u <- ws :: !Names(u, a, t)
    ensures Project(ws, a, t) == []
    decreases |ws|
  {
    if ws != [] {
      assert ws[|ws| - 1] in ws;
      assert forall u <- ws[..|ws| - 1] :: u in ws;
      ProjectNone(ws[..|ws| - 1], a, t);
    }
  }

  /** What the issue scan of a pass starts from, given the invariant. */
  lemma QueuedFacts(s: ArbiterState, acquires: seq<ResourceRequest>)
    requires Inv(s) && BatchOk(s.atoms.Keys, [], acquires)
    ensures forall w <- Queued(s, acquires) :: TicketOk(s.atoms.Keys, w) && w.id < s.nextId + |acquires|
    ensures forall w <- MakeTickets(acquires, s.nextId) :: s.nextId <= w.id
    ensures Increasing(Queued(s, acquires))
  {
    var ts := MakeTickets(acquires, s.nextId);
    forall w <- ts ensures TicketOk(s.atoms.Keys, w) && s.nextId <= w.id < s.nextId + |acquires| {
      var k :| 0 <= k < |ts| && ts[k] == w;
      assert AcquireOk(s.atoms.Keys, acquires[k]);
    }
    IncreasingJoin(s.waiting, ts);
  }

  /** Releases clear holders only; registration appends the new tickets to the FIFOs. */
  lemma RegisteredFacts(s: ArbiterState, releases: seq<ResourceRequest>, acquires: seq<ResourceRequest>)
    requires Inv(s) && BatchOk(s.atoms.Keys, releases, acquires)
    ensures QueuesMatch(Registered(s, releases, acquires), Queued(s, acquires))
    ensures forall a, t :: a in s.atoms ==>
      Registered(s, releases, acquires)[a].Current(t) ==
        if ReleasedBy(releases, a, t) then None else s.atoms[a].Current(t)
  {
    var ts := MakeTickets(acquires, s.nextId);
    forall a, t | a in s.atoms ensures Registered(s, releases, acquires)[a].Queue(t) == Project(Queued(s, acquires), a, t) {
      ProjectAppend(s.waiting, ts, a, t);
    }
  }

  /** A holder from before the pass is not among this pass's waiters. */
  lemma OldHolderNotWaiting(s: ArbiterState, ts: seq<Ticket>, left: seq<Ticket>, v: ReqId)
    requires v < s.nextId && !IsWaiting(s.waiting, v)
    requires forall w <- ts :: s.nextId <= w.id
    requires forall x <- left :: x in s.waiting + ts
    ensures !IsWaiting(left, v)
  {
    forall i | 0 <= i < |left| ensures left[i].id != v {
      assert left[i] in s.waiting + ts;
      if left[i] in s.waiting {
        var k :| 0 <= k < |s.waiting| && s.waiting[k] == left[i];
      }
    }
  }

  /** A ticket the pass issued is no longer waiting, under its id. */
  lemma IssuedNotWaiting(ws: seq<Ticket>, iss: seq<Ticket>, u: Ticket)
    requires Increasing(ws) && u in ws && u in iss
    ensures !IsWaiting(Without(ws, iss), u.id)
  {
    var left := Without(ws, iss);
    forall i | 0 <= i < |left| ensures left[i].id != u.id {
      assert left[i] in ws;
      if left[i].id == u.id {
        IncreasingUnique(ws, left[i], u);
      }
    }
  }

  /** After a pass every holder is a request already numbered and no longer waiting. */
  lemma HoldersAfterPass(s: ArbiterState, releases: seq<ResourceRequest>, acquires: seq<ResourceRequest>)
    requires Inv(s) && BatchOk(s.atoms.Keys, releases, acquires)
    ensures HoldersIssued(PassSpec(s, releases, acquires).state.atoms, PassSpec(s, releases, acquires).state.waiting,
                          s.nextId + |acquires|)
  {
    var ws := Queued(s, acquires);
    var atoms := Registered(s, releases, acquires);
    var ts := MakeTickets(acquires, s.nextId);
    assert BatchOk(s.atoms.Keys, [], acquires);
    QueuedFacts(s, acquires);
    RegisteredFacts(s, releases, acquires);
    ScanHolders(atoms, ws);
    ScanIssuedFrom(atoms, ws);
    var sc := Scan(atoms, ws);
    var left := Without(ws, sc.issued);
    forall a, t | a in sc.atoms && sc.atoms[a].Current(t).Some?
      ensures sc.atoms[a].Current(t).value < s.nextId + |acquires| && !IsWaiting(left, sc.atoms[a].Current(t).value)
    {
      var v := sc.atoms[a].Current(t).value;
      if sc.atoms[a].Current(t) == atoms[a].Current(t) {
        OldHolderNotWaiting(s, ts, left, v);
      } else {
        var u :| u in sc.issued && Names(u, a, t) && Some(v) == Some(u.id);
        IssuedNotWaiting(ws, sc.issued, u);
      }
    }
  }

  /** Every pass keeps the arbiter's invariant. */
  lemma PassPreservesInv(s: ArbiterState, releases: seq<ResourceRequest>, acquires: seq<ResourceRequest>)
    requires Inv(s) && BatchOk(s.atoms.Keys, releases, acquires)
    ensures Inv(PassSpec(s, releases, acquires).state)
  {
    var ws := Queued(s, acquires);
    var atoms := Registered(s, releases, acquires);
    assert BatchOk(s.atoms.Keys, [], acquires);
    QueuedFacts(s, acquires);
    RegisteredFacts(s, releases, acquires);
    assert ws + [] == ws;
    ScanQueues(atoms, ws, []);
    var sc := Scan(atoms, ws);
    assert Without(ws, sc.issued) + [] == Without(ws, sc.issued);
    HoldersAfterPass(s, releases, acquires);
  }

  /**
   * All or nothing: a request granted by a pass holds every atom it named, of
   * its type, when the pass ends.
   */
  lemma PassAllOrNothing(s: ArbiterState, releases: seq<ResourceRequest>, acquires: seq<ResourceRequest>)
    requires Inv(s) && BatchOk(s.atoms.Keys, releases, acquires)
    ensures var o := PassSpec(s, releases, acquires);
      forall w, a, t :: w in o.issued && a in s.atoms && Names(w, a, t) ==> o.state.atoms[a].Current(t) == Some(w.id)
  {
    assert BatchOk(s.atoms.Keys, [], acquires);
    QueuedFacts(s, acquires);
    ScanHolders(Registered(s, releases, acquires), Queued(s, acquires));
  }

  /**
   * No preemption: a holder that no release of the batch cleared keeps its
   * resource, and a resource changes hands only to a request the pass granted
   * that named it.
   */
  lemma PassHolders(s: ArbiterState, releases: seq<ResourceRequest>, acquires: seq<ResourceRequest>)
    requires Inv(s) && BatchOk(s.atoms.Keys, releases, acquires)
    ensures var o := PassSpec(s, releases, acquires);
      forall a, t :: a in s.atoms && !ReleasedBy(releases, a, t) && s.atoms[a].InUse(t) ==>
        o.state.atoms[a].Current(t) == s.atoms[a].Current(t)
    ensures var o := PassSpec(s, releases, acquires);
      forall a, t :: a in s.atoms && o.state.atoms[a].Current(t) != s.atoms[a].Current(t) ==>
        o.state.atoms[a].Current(t) == None || HeldBy(o.issued, a, t, o.state.atoms[a].Current(t))
  {
    assert BatchOk(s.atoms.Keys, [], acquires);
    QueuedFacts(s, acquires);
    RegisteredFacts(s, releases, acquires);
    ScanHolders(Registered(s, releases, acquires), Queued(s, acquires));
  }

  /**
   * FIFO fairness per atom: if a pass grants a request, it also granted every
   * request that reached the same resource of a common atom before it; and
   * grants are made in arrival order.
   */
  lemma PassFifoFair(s: ArbiterState, releases: seq<ResourceRequest>, acquires: seq<ResourceRequest>,
                     i: nat, j: nat, a: AtomId, t: ResourceType)
    requires Inv(s) && BatchOk(s.atoms.Keys, releases, acquires)
    requires i < j < |Queued(s, acquires)|
    requires Names(Queued(s, acquires)[i], a, t) && Names(Queued(s, acquires)[j], a, t)
    ensures Increasing(PassSpec(s, releases, acquires).issued)
    ensures Queued(s, acquires)[j] in PassSpec(s, releases, acquires).issued ==>
      Queued(s, acquires)[i] in PassSpec(s, releases, acquires).issued
  {
    var ws := Queued(s, acquires);
    var atoms := Registered(s, releases, acquires);
    assert BatchOk(s.atoms.Keys, [], acquires);
    QueuedFacts(s, acquires);
    RegisteredFacts(s, releases, acquires);
    ScanIssuedFrom(atoms, ws);
    if ws[j] in Scan(atoms, ws).issued {
      ScanFair(atoms, ws, i, j, a, t);
      ScanPrefix(atoms, ws, j);
    }
  }

  /** A pass loses and invents no request: granted plus still waiting is what it scanned. */
  lemma PassConserves(s: ArbiterState, releases: seq<ResourceRequest>, acquires: seq<ResourceRequest>)
    requires Inv(s) && BatchOk(s.atoms.Keys, releases, acquires)
    ensures multiset(PassSpec(s, releases, acquires).issued) + multiset(PassSpec(s, releases, acquires).state.waiting) ==
      multiset(Queued(s, acquires))
  {
    assert BatchOk(s.atoms.Keys, [], acquires);
    QueuedFacts(s, acquires);
    ScanPartition(Registered(s, releases, acquires), Queued(s, acquires));
  }

  /** The pass notifies a request exactly when it grants it and it names some atom. */
  lemma PassNotifies(s: ArbiterState, releases: seq<ResourceRequest>, acquires: seq<ResourceRequest>, id: ReqId)
    requires Inv(s) && BatchOk(s.atoms.Keys, releases, acquires)
    ensures id in PassSpec(s, releases, acquires).notified <==>
      exists w <- PassSpec(s, releases, acquires).issued :: w.id == id && w.resourcesId != []
  {
    NotificationsOf(PassSpec(s, releases, acquires).issued, id);
  }

  /** At its turn, a ticket nobody before it competes with finds the resource free. */
  lemma FreeAtTurn(atoms: Atoms, ws: seq<Ticket>, p: nat, a: AtomId, t: ResourceType)
    requires forall w <- ws :: TicketOk(atoms.Keys, w)
    requires p < |ws| && a in atoms
    requires forall u <- ws[..p] :: !Names(u, a, t)
    requires atoms[a].Current(t) == None
    ensures !Scan(atoms, ws[..p]).atoms[a].InUse(t)
  {
    var before := ws[..p];
    assert forall u <- before :: u in ws;
    ScanHolders(atoms, before);
    ScanIssuedFrom(atoms, before);
  }

  lemma ProjectHeadFirst(left: seq<Ticket>, rest: seq<Ticket>, a: AtomId, t: ResourceType)
    requires forall u <- left :: !Names(u, a, t)
    requires rest != [] && Names(rest[0], a, t)
    ensures Project(left + rest, a, t) != [] && Project(left + rest, a, t)[0] == rest[0].id
  {
    ProjectNone(left, a, t);
    ProjectAppend(left, rest, a, t);
    assert rest == [rest[0]] + rest[1..];
    ProjectAppend([rest[0]], rest[1..], a, t);
    ProjectSingle(rest[0], a, t);
  }

  /** At its turn, a ticket nobody before it competes with is at the head of the FIFO. */
  lemma HeadAtTurn(atoms: Atoms, ws: seq<Ticket>, p: nat, a: AtomId, t: ResourceType)
    requires forall w <- ws :: TicketOk(atoms.Keys, w)
    requires Increasing(ws) && QueuesMatch(atoms, ws)
    requires p < |ws| && a in atoms && Names(ws[p], a, t)
    requires forall u <- ws[..p] :: !Names(u, a, t)
    ensures Scan(atoms, ws[..p]).atoms[a].Queue(t) != [] && Scan(atoms, ws[..p]).atoms[a].Queue(t)[0] == ws[p].id
  {
    var before := ws[..p];
    assert forall u <- before :: u in ws;
    assert before + ws[p..] == ws;
    ScanQueues(atoms, before, ws[p..]);
    var left := Without(before, Scan(atoms, before).issued);
    ProjectHeadFirst(left, ws[p..], a, t);
  }

  /** A ticket that passes the issue test at its turn is issued by the scan. */
  lemma GrantedAtTurn(atoms: Atoms, ws: seq<Ticket>, p: nat)
    requires forall w <- ws :: TicketOk(atoms.Keys, w)
    requires p < |ws|
    requires TicketOk(Scan(atoms, ws[..p]).atoms.Keys, ws[p]) && CanIssue(Scan(atoms, ws[..p]).atoms, ws[p])
    ensures ws[p] in Scan(atoms, ws).issued
  {
    assert ws[..p + 1][..p] == ws[..p] && ws[..p + 1][p] == ws[p];
    ScanPrefix(atoms, ws, p + 1);
  }

  /**
   * Progress: a waiting request whose atoms are all free once this pass's
   * releases are applied, and which no earlier waiter competes with, is granted
   * in this pass. In particular a request with no resource type always is.
   */
  lemma PassGrantsUncontended(s: ArbiterState, releases: seq<ResourceRequest>, acquires: seq<ResourceRequest>, p: nat)
    requires Inv(s) && BatchOk(s.atoms.Keys, releases, acquires)
    requires p < |Queued(s, acquires)|
    requires forall a, t :: a in s.atoms && Names(Queued(s, acquires)[p], a, t) ==>
      (s.atoms[a].Current(t) == None || ReleasedBy(releases, a, t)) &&
      forall u <- Queued(s, acquires)[..p] :: !Names(u, a, t)
    ensures Queued(s, acquires)[p] in PassSpec(s, releases, acquires).issued
  {
    var ws := Queued(s, acquires);
    var atoms := Registered(s, releases, acquires);
    var w := ws[p];
    assert BatchOk(s.atoms.Keys, [], acquires);
    QueuedFacts(s, acquires);
    RegisteredFacts(s, releases, acquires);
    var before := ws[..p];
    assert forall u <- before :: u in ws;
    assert w in ws;
    var prior := Scan(atoms, before);
    forall a | a in w.resourcesId && w.resourceType.Some?
      ensures !prior.atoms[a].InUse(w.resourceType.value) && prior.atoms[a].Queue(w.resourceType.value) != [] &&
        prior.atoms[a].Queue(w.resourceType.value)[0] == w.id
    {
      assert a in s.atoms && Names(w, a, w.resourceType.value);
      FreeAtTurn(atoms, ws, p, a, w.resourceType.value);
      HeadAtTurn(atoms, ws, p, a, w.resourceType.value);
    }
    GrantedAtTurn(atoms, ws, p);
  }
}
