/**
 * The atom resource arbiter of NeutronSim/Atom.py as an object whose methods
 * update its fields in place, each loop proved against the fold it computes
 * in module AtomState.
 */
module Atom {
  import opened Wrappers
  import opened AtomState
  import AtomProofs

  class AtomManager {
    /** The requests submitted since the last pass (pending, not yet waiting). */
    var pendingAcquireRequestQueue: seq<ResourceRequest>
    var pendingReleaseRequestQueue: seq<ResourceRequest>
    /** Registered acquires not yet granted, in arrival order. */
    var waitingAcquireRequestQueue: seq<Ticket>
    var atomInstanceDict: Atoms
    /** The arrival index the next registered acquire receives. */
    var nextId: ReqId

    function State(): ArbiterState
      reads this
    {
      ArbiterState(atomInstanceDict, waitingAcquireRequestQueue, nextId)
    }

    ghost predicate Valid()
      reads this
    {
      Inv(State()) && BatchOk(atomInstanceDict.Keys, pendingReleaseRequestQueue, pendingAcquireRequestQueue)
    }

    /** An arbiter over the given atoms, all idle, with nothing pending or waiting. */
    constructor(ids: set<AtomId>)
      ensures Valid()
      ensures State() == ArbiterState(map x | x in ids :: Idle, [], 0)
      ensures pendingAcquireRequestQueue == [] && pendingReleaseRequestQueue == []
    {
      pendingAcquireRequestQueue := [];
      pendingReleaseRequestQueue := [];
      waitingAcquireRequestQueue := [];
      atomInstanceDict := map x | x in ids :: Idle;
      nextId := 0;
    }

    /**
     * Accept an acquire into the pending list. The source asserts the access
     * type and the finish event; a request failing either is refused here and
     * nothing changes. Ids outside the table or repeated would make the next
     * pass fail, so the caller must not submit them.
     */
    method HandleAcquireRequest(req: ResourceRequest) returns (accepted: bool)
      requires Valid()
      requires AcquireOk(atomInstanceDict.Keys, req)
      modifies this
      ensures Valid()
      ensures accepted <==> req.accessType == Some(Acquire) && req.hasFinishEvent
      ensures pendingAcquireRequestQueue == old(pendingAcquireRequestQueue) + (if accepted then [req] else [])
      ensures pendingReleaseRequestQueue == old(pendingReleaseRequestQueue)
      ensures State() == old(State())
    {
      accepted := req.accessType == Some(Acquire) && req.hasFinishEvent;
      if accepted {
        pendingAcquireRequestQueue := pendingAcquireRequestQueue + [req];
      }
    }

    /** Accept a release into the pending list; one that is not a release is refused. */
    method HandleReleaseRequest(req: ResourceRequest) returns (accepted: bool)
      requires Valid()
      requires ReleaseOk(atomInstanceDict.Keys, req)
      modifies this
      ensures Valid()
      ensures accepted <==> req.accessType == Some(Release)
      ensures pendingReleaseRequestQueue == old(pendingReleaseRequestQueue) + (if accepted then [req] else [])
      ensures pendingAcquireRequestQueue == old(pendingAcquireRequestQueue)
      ensures State() == old(State())
    {
      accepted := req.accessType == Some(Release);
      if accepted {
        pendingReleaseRequestQueue := pendingReleaseRequestQueue + [req];
      }
    }

    /** The atom under an id; None where the source's dictionary lookup raises. */
    function GetAtomInstance(id: AtomId): (r: Option<AtomInstance>)
      reads this
      ensures r.Some? <==> id in atomInstanceDict
      ensures r.Some? ==> r.value == atomInstanceDict[id]
    {
      if id in atomInstanceDict then Some(atomInstanceDict[id]) else None
    }

    /** Clear the holder of the release's type on each atom it names. */
    method ReleaseOne(req: ResourceRequest)
      requires ReleaseOk(atomInstanceDict.Keys, req)
      modifies this
      ensures atomInstanceDict == ClearHolders(old(atomInstanceDict), req.resourceType, req.resourcesId)
      ensures waitingAcquireRequestQueue == old(waitingAcquireRequestQueue) && nextId == old(nextId)
      ensures pendingAcquireRequestQueue == old(pendingAcquireRequestQueue)
      ensures pendingReleaseRequestQueue == old(pendingReleaseRequestQueue)
    {
      ghost var before := atomInstanceDict;
      ghost var rt := req.resourceType;
      if rt.Some? {
        AtomProofs.AppliedOnNone(before, AtomProofs.ClearOp(rt.value));
      }
      for m := 0 to |req.resourcesId|
        invariant rt.None? ==> atomInstanceDict == before
        invariant rt.Some? ==> AtomProofs.AppliedOn(before, atomInstanceDict, AtomProofs.ClearOp(rt.value), req.resourcesId[..m])
        invariant waitingAcquireRequestQueue == old(waitingAcquireRequestQueue) && nextId == old(nextId)
        invariant pendingAcquireRequestQueue == old(pendingAcquireRequestQueue)
        invariant pendingReleaseRequestQueue == old(pendingReleaseRequestQueue)
      {
        var id := req.resourcesId[m];
        assert req.resourcesId[..m + 1] == req.resourcesId[..m] + [id];
        if req.resourceType == Some(Link) {
          assert id in req.resourcesId;
          AtomProofs.AppliedOnClearAgain(before, atomInstanceDict, Link, req.resourcesId[..m], id);
          atomInstanceDict := atomInstanceDict[id := atomInstanceDict[id].WithCurrent(Link, None)];
        } else if req.resourceType == Some(Compute) {
          assert id in req.resourcesId;
          AtomProofs.AppliedOnClearAgain(before, atomInstanceDict, Compute, req.resourcesId[..m], id);
          atomInstanceDict := atomInstanceDict[id := atomInstanceDict[id].WithCurrent(Compute, None)];
        }
      }
      assert req.resourcesId[..|req.resourcesId|] == req.resourcesId;
      AtomProofs.AppliedOnClear(before, atomInstanceDict, rt, req.resourcesId);
    }

    /** Apply a batch of releases in order. */
    method ProcessReleases(releases: seq<ResourceRequest>)
      requires forall k :: 0 <= k < |releases| ==> ReleaseOk(atomInstanceDict.Keys, releases[k])
      modifies this
      ensures atomInstanceDict == ApplyReleases(old(atomInstanceDict), releases)
      ensures waitingAcquireRequestQueue == old(waitingAcquireRequestQueue) && nextId == old(nextId)
      ensures pendingAcquireRequestQueue == old(pendingAcquireRequestQueue)
      ensures pendingReleaseRequestQueue == old(pendingReleaseRequestQueue)
    {
      ghost var start := atomInstanceDict;
      for k := 0 to |releases|
        invariant atomInstanceDict == ApplyReleases(start, releases[..k])
        invariant waitingAcquireRequestQueue == old(waitingAcquireRequestQueue) && nextId == old(nextId)
        invariant pendingAcquireRequestQueue == old(pendingAcquireRequestQueue)
        invariant pendingReleaseRequestQueue == old(pendingReleaseRequestQueue)
      {
        assert ReleaseOk(start.Keys, releases[k]);
        ReleaseOne(releases[k]);
        assert releases[..k + 1][..k] == releases[..k];
      }
      assert releases[..|releases|] == releases;
    }

    /** Append a ticket to the matching FIFO of each atom it names. */
    method RegisterOne(ticket: Ticket)
      requires TicketOk(atomInstanceDict.Keys, ticket)
      modifies this
      ensures atomInstanceDict == RegisterTicket(old(atomInstanceDict), ticket)
      ensures waitingAcquireRequestQueue == old(waitingAcquireRequestQueue) && nextId == old(nextId)
      ensures pendingAcquireRequestQueue == old(pendingAcquireRequestQueue)
      ensures pendingReleaseRequestQueue == old(pendingReleaseRequestQueue)
    {
      ghost var before := atomInstanceDict;
      ghost var rt := ticket.resourceType;
      if rt.Some? {
        AtomProofs.AppliedOnNone(before, AtomProofs.EnqueueOp(rt.value, ticket.id));
      }
      for m := 0 to |ticket.resourcesId|
        invariant rt.None? ==> atomInstanceDict == before
        invariant rt.Some? ==>
          AtomProofs.AppliedOn(before, atomInstanceDict, AtomProofs.EnqueueOp(rt.value, ticket.id), ticket.resourcesId[..m])
        invariant waitingAcquireRequestQueue == old(waitingAcquireRequestQueue) && nextId == old(nextId)
        invariant pendingAcquireRequestQueue == old(pendingAcquireRequestQueue)
        invariant pendingReleaseRequestQueue == old(pendingReleaseRequestQueue)
      {
        var id := ticket.resourcesId[m];
        assert ticket.resourcesId[..m + 1] == ticket.resourcesId[..m] + [id];
        assert id in ticket.resourcesId;
        if ticket.resourceType == Some(Link) {
          AtomProofs.AppliedOnStep(before, atomInstanceDict, AtomProofs.EnqueueOp(Link, ticket.id), ticket.resourcesId[..m], id);
          atomInstanceDict := atomInstanceDict[id := atomInstanceDict[id].Enqueue(Link, ticket.id)];
        } else if ticket.resourceType == Some(Compute) {
          AtomProofs.AppliedOnStep(before, atomInstanceDict, AtomProofs.EnqueueOp(Compute, ticket.id), ticket.resourcesId[..m], id);
          atomInstanceDict := atomInstanceDict[id := atomInstanceDict[id].Enqueue(Compute, ticket.id)];
        }
      }
      assert ticket.resourcesId[..|ticket.resourcesId|] == ticket.resourcesId;
      AtomProofs.AppliedOnEnqueue(before, atomInstanceDict, ticket);
    }

    /** Register one acquire: it gets the next arrival index and joins the waiting list and its FIFOs. */
    method RegisterAcquire(req: ResourceRequest) returns (ticket: Ticket)
      requires AcquireOk(atomInstanceDict.Keys, req)
      modifies this
      ensures ticket == Ticket(old(nextId), req.resourceType, req.resourcesId)
      ensures atomInstanceDict == RegisterTicket(old(atomInstanceDict), ticket)
      ensures waitingAcquireRequestQueue == old(waitingAcquireRequestQueue) + [ticket]
      ensures nextId == old(nextId) + 1
      ensures pendingAcquireRequestQueue == old(pendingAcquireRequestQueue)
      ensures pendingReleaseRequestQueue == old(pendingReleaseRequestQueue)
    {
      ticket := Ticket(nextId, req.resourceType, req.resourcesId);
      waitingAcquireRequestQueue := waitingAcquireRequestQueue + [ticket];
      nextId := nextId + 1;
      RegisterOne(ticket);
    }

    /**
     * Register a batch of acquires in order: each gets the next arrival index,
     * joins the waiting list, and joins the matching FIFO of every atom it names.
     */
    method RegisterAcquires(acquires: seq<ResourceRequest>)
      requires forall k :: 0 <= k < |acquires| ==> AcquireOk(atomInstanceDict.Keys, acquires[k])
      modifies this
      ensures atomInstanceDict == RegisterTickets(old(atomInstanceDict), MakeTickets(acquires, old(nextId)))
      ensures waitingAcquireRequestQueue == old(waitingAcquireRequestQueue) + MakeTickets(acquires, old(nextId))
      ensures nextId == old(nextId) + |acquires|
      ensures pendingAcquireRequestQueue == old(pendingAcquireRequestQueue)
      ensures pendingReleaseRequestQueue == old(pendingReleaseRequestQueue)
    {
      ghost var start := atomInstanceDict;
      ghost var ts := MakeTickets(acquires, nextId);
      for k := 0 to |acquires|
        invariant nextId == old(nextId) + k
        invariant waitingAcquireRequestQueue == old(waitingAcquireRequestQueue) + ts[..k]
        invariant atomInstanceDict == RegisterTickets(start, ts[..k])
        invariant pendingAcquireRequestQueue == old(pendingAcquireRequestQueue)
        invariant pendingReleaseRequestQueue == old(pendingReleaseRequestQueue)
      {
        AtomProofs.RegisterTicketsSnoc(start, ts, k);
        var ticket := RegisterAcquire(acquires[k]);
        assert ticket == ts[k];
        assert ts[..k + 1] == ts[..k] + [ticket];
      }
      assert ts[..|acquires|] == ts;
    }

    /**
     * The issue test of one waiting ticket, atom by atom, stopping at the first
     * atom whose resource is busy or whose FIFO head is another request.
     */
    method CheckIssue(w: Ticket) returns (canIssue: bool)
      requires TicketOk(atomInstanceDict.Keys, w)
      requires forall a, t :: a in atomInstanceDict && Names(w, a, t) ==> atomInstanceDict[a].Queue(t) != []
      ensures canIssue == CanIssue(atomInstanceDict, w)
    {
      canIssue := true;
      assert forall x <- w.resourcesId :: x in atomInstanceDict;
      for m := 0 to |w.resourcesId|
        invariant canIssue
        invariant w.resourceType.Some? ==> forall x <- w.resourcesId[..m] ::
          !atomInstanceDict[x].InUse(w.resourceType.value) && atomInstanceDict[x].Queue(w.resourceType.value)[0] == w.id
      {
        assert w.resourcesId[m] in w.resourcesId;
        var atom := atomInstanceDict[w.resourcesId[m]];
        assert w.resourcesId[..m + 1] == w.resourcesId[..m] + [w.resourcesId[m]];
        if w.resourceType == Some(Link) {
          assert Names(w, w.resourcesId[m], Link);
          if atom.LinkInUse() || atom.linkRequestQueue[0] != w.id {
            canIssue := false;
            break;
          }
        } else if w.resourceType == Some(Compute) {
          assert Names(w, w.resourcesId[m], Compute);
          if atom.ComputeInUse() || atom.computeRequestQueue[0] != w.id {
            canIssue := false;
            break;
          }
        }
      }
      assert w.resourcesId[..|w.resourcesId|] == w.resourcesId;
    }

    /**
     * Grant an issuable ticket: on every atom it names, the holder must be empty,
     * and becomes the head popped from that atom's FIFO. One notification is
     * recorded per named id.
     */
    method GrantTicket(w: Ticket) returns (notes: seq<ReqId>)
      requires TicketOk(atomInstanceDict.Keys, w)
      requires CanIssue(atomInstanceDict, w)
      modifies this
      ensures atomInstanceDict == Grant(old(atomInstanceDict), w)
      ensures notes == seq(|w.resourcesId|, _ => w.id)
      ensures waitingAcquireRequestQueue == old(waitingAcquireRequestQueue) && nextId == old(nextId)
      ensures pendingAcquireRequestQueue == old(pendingAcquireRequestQueue)
      ensures pendingReleaseRequestQueue == old(pendingReleaseRequestQueue)
    {
      ghost var before := atomInstanceDict;
      ghost var rt := w.resourceType;
      if rt.Some? {
        AtomProofs.AppliedOnNone(before, AtomProofs.PopOp(rt.value));
      }
      notes := [];
      for m := 0 to |w.resourcesId|
        invariant rt.None? ==> atomInstanceDict == before
        invariant rt.Some? ==> AtomProofs.AppliedOn(before, atomInstanceDict, AtomProofs.PopOp(rt.value), w.resourcesId[..m])
        invariant notes == seq(m, _ => w.id)
        invariant waitingAcquireRequestQueue == old(waitingAcquireRequestQueue) && nextId == old(nextId)
        invariant pendingAcquireRequestQueue == old(pendingAcquireRequestQueue)
        invariant pendingReleaseRequestQueue == old(pendingReleaseRequestQueue)
      {
        var id := w.resourcesId[m];
        assert w.resourcesId[..m + 1] == w.resourcesId[..m] + [id];
        assert id in w.resourcesId;
        if w.resourceType == Some(Link) {
          assert id !in w.resourcesId[..m];
          assert atomInstanceDict[id] == before[id];
          assert atomInstanceDict[id].currentLinkRequest == None;
          AtomProofs.AppliedOnStep(before, atomInstanceDict, AtomProofs.PopOp(Link), w.resourcesId[..m], id);
          atomInstanceDict := atomInstanceDict[id := atomInstanceDict[id].PopToCurrent(Link)];
        } else if w.resourceType == Some(Compute) {
          assert id !in w.resourcesId[..m];
          assert atomInstanceDict[id] == before[id];
          assert atomInstanceDict[id].currentComputeRequest == None;
          AtomProofs.AppliedOnStep(before, atomInstanceDict, AtomProofs.PopOp(Compute), w.resourcesId[..m], id);
          atomInstanceDict := atomInstanceDict[id := atomInstanceDict[id].PopToCurrent(Compute)];
        }
        notes := notes + [w.id];
      }
      assert w.resourcesId[..|w.resourcesId|] == w.resourcesId;
      AtomProofs.AppliedOnGrant(before, atomInstanceDict, w);
    }

    /**
     * The issue scan: test each waiting ticket in arrival order against the
     * current atom table and grant it on the spot when it passes.
     */
    method IssueWaiting() returns (issued: seq<Ticket>, notified: seq<ReqId>)
      requires forall w <- waitingAcquireRequestQueue :: TicketOk(atomInstanceDict.Keys, w)
      requires Increasing(waitingAcquireRequestQueue)
      requires QueuesMatch(atomInstanceDict, waitingAcquireRequestQueue)
      modifies this
      ensures ScanResult(atomInstanceDict, issued) == Scan(old(atomInstanceDict), old(waitingAcquireRequestQueue))
      ensures notified == Notifications(issued)
      ensures waitingAcquireRequestQueue == old(waitingAcquireRequestQueue) && nextId == old(nextId)
      ensures pendingAcquireRequestQueue == old(pendingAcquireRequestQueue)
      ensures pendingReleaseRequestQueue == old(pendingReleaseRequestQueue)
    {
      ghost var start := atomInstanceDict;
      var ws := waitingAcquireRequestQueue;
      issued := [];
      notified := [];
      for k := 0 to |ws|
        invariant ScanResult(atomInstanceDict, issued) == Scan(start, ws[..k])
        invariant notified == Notifications(issued)
        invariant waitingAcquireRequestQueue == old(waitingAcquireRequestQueue) && nextId == old(nextId)
        invariant pendingAcquireRequestQueue == old(pendingAcquireRequestQueue)
        invariant pendingReleaseRequestQueue == old(pendingReleaseRequestQueue)
      {
        var w := ws[k];
        AtomProofs.QueuedAtTurn(start, ws, k);
        AtomProofs.ScanSnoc(start, ws, k);
        var canIssue := CheckIssue(w);
        if canIssue {
          AtomProofs.NotificationsSnoc(issued, w);
          issued := issued + [w];
          var notes := GrantTicket(w);
          notified := notified + notes;
        }
      }
      assert ws[..|ws|] == ws;
    }

    /** Drop the granted tickets from the waiting list, one `remove` at a time. */
    method RemoveIssued(issued: seq<Ticket>)
      requires Increasing(waitingAcquireRequestQueue) && Increasing(issued)
      requires forall x <- issued :: x in waitingAcquireRequestQueue
      modifies this
      ensures waitingAcquireRequestQueue == Without(old(waitingAcquireRequestQueue), issued)
      ensures atomInstanceDict == old(atomInstanceDict) && nextId == old(nextId)
      ensures pendingAcquireRequestQueue == old(pendingAcquireRequestQueue)
      ensures pendingReleaseRequestQueue == old(pendingReleaseRequestQueue)
    {
      ghost var ws := waitingAcquireRequestQueue;
      AtomProofs.WithoutNone(ws);
      for k := 0 to |issued|
        invariant waitingAcquireRequestQueue == Without(ws, issued[..k])
        invariant atomInstanceDict == old(atomInstanceDict) && nextId == old(nextId)
        invariant pendingAcquireRequestQueue == old(pendingAcquireRequestQueue)
        invariant pendingReleaseRequestQueue == old(pendingReleaseRequestQueue)
      {
        assert issued[k] in issued;
        AtomProofs.IncreasingNotEarlier(issued, k);
        AtomProofs.WithoutOneMore(ws, issued[..k], issued[k]);
        waitingAcquireRequestQueue := Remove(waitingAcquireRequestQueue, issued[k]);
        AtomProofs.SliceSnoc(issued, k);
      }
      assert issued[..|issued|] == issued;
    }

    /**
     * One arbitration pass over a batch: apply every release, register every
     * acquire, run the issue scan, then remove what was granted.
     */
    method Pass(releases: seq<ResourceRequest>, acquires: seq<ResourceRequest>)
      returns (issued: seq<Ticket>, notified: seq<ReqId>)
      requires Inv(State()) && BatchOk(atomInstanceDict.Keys, releases, acquires)
      modifies this
      ensures PassOutcome(State(), issued, notified) == PassSpec(old(State()), releases, acquires)
      ensures Inv(State())
      ensures pendingAcquireRequestQueue == old(pendingAcquireRequestQueue)
      ensures pendingReleaseRequestQueue == old(pendingReleaseRequestQueue)
    {
      ghost var s := State();
      assert BatchOk(s.atoms.Keys, [], acquires);
      AtomProofs.QueuedFacts(s, acquires);
      AtomProofs.RegisteredFacts(s, releases, acquires);
      AtomProofs.PassPreservesInv(s, releases, acquires);
      ProcessReleases(releases);
      RegisterAcquires(acquires);
      assert atomInstanceDict == Registered(s, releases, acquires);
      assert waitingAcquireRequestQueue == Queued(s, acquires);
      ghost var ws := waitingAcquireRequestQueue;
      issued, notified := IssueWaiting();
      AtomProofs.ScanIssuedFrom(Registered(s, releases, acquires), ws);
      RemoveIssued(issued);
    }

    /** The pass the update event triggers: it consumes both pending lists. */
    method Process() returns (issued: seq<Ticket>, notified: seq<ReqId>)
      requires Valid()
      modifies this
      ensures Valid()
      ensures PassOutcome(State(), issued, notified) ==
        PassSpec(old(State()), old(pendingReleaseRequestQueue), old(pendingAcquireRequestQueue))
      ensures pendingAcquireRequestQueue == [] && pendingReleaseRequestQueue == []
    {
      issued, notified := Pass(pendingReleaseRequestQueue, pendingAcquireRequestQueue);
      pendingAcquireRequestQueue := [];
      pendingReleaseRequestQueue := [];
    }

    /**
     * `process` as written: the pass reads the pending lists and never empties
     * them, so the next pass sees the same requests again (see
     * `AtomFindings.PendingReplayedAsWritten`).
     */
    method ProcessAsWritten() returns (issued: seq<Ticket>, notified: seq<ReqId>)
      requires Valid()
      modifies this
      ensures Valid()
      ensures PassOutcome(State(), issued, notified) ==
        PassSpec(old(State()), old(pendingReleaseRequestQueue), old(pendingAcquireRequestQueue))
      ensures pendingAcquireRequestQueue == old(pendingAcquireRequestQueue)
      ensures pendingReleaseRequestQueue == old(pendingReleaseRequestQueue)
    {
      issued, notified := Pass(pendingReleaseRequestQueue, pendingAcquireRequestQueue);
    }
  }
}
