/**
 * The state of the atom resource arbiter and the pure transitions of one
 * arbitration pass (NeutronSim/Atom.py, and its older copy NeutronSim/AtomManager.py).
 *
 * Each transition is a left fold over the requests or ids it walks, in the same
 * order as the source's loops, so that the imperative AtomManager in module Atom
 * can be proved against it loop by loop.
 */
module AtomState {
  import opened Wrappers

  type AtomId = int

  /** A request's identity: its arrival index at the arbiter. */
  type ReqId = nat

  datatype ResourceType = Link | Compute

  datatype AccessType = Acquire | Release

  /**
   * An engine's request as it submits it. Both kinds default to None in the
   * source; a request whose resource type is None touches no atom.
   * `hasFinishEvent` stands for a non-null `acquire_finish_event`.
   */
  datatype ResourceRequest = ResourceRequest(
    resourceType: Option<ResourceType>,
    accessType: Option<AccessType>,
    resourcesId: seq<AtomId>,
    requesterId: int,
    hasFinishEvent: bool)

  /** An acquire request once registered: the arbiter gives it its arrival index. */
  datatype Ticket = Ticket(id: ReqId, resourceType: Option<ResourceType>, resourcesId: seq<AtomId>)

  /** One atom's arbitration state: a FIFO and a current holder per resource type. */
  datatype AtomInstance = AtomInstance(
    linkRequestQueue: seq<ReqId>,
    computeRequestQueue: seq<ReqId>,
    currentLinkRequest: Option<ReqId>,
    currentComputeRequest: Option<ReqId>)
  {
    predicate LinkInUse() {
      currentLinkRequest.Some?
    }

    predicate ComputeInUse() {
      currentComputeRequest.Some?
    }

    predicate InUse(t: ResourceType) {
      match t
      case Link => LinkInUse()
      case Compute => ComputeInUse()
    }

    function Queue(t: ResourceType): seq<ReqId> {
      match t
      case Link => linkRequestQueue
      case Compute => computeRequestQueue
    }

    function Current(t: ResourceType): Option<ReqId> {
      match t
      case Link => currentLinkRequest
      case Compute => currentComputeRequest
    }

    function WithCurrent(t: ResourceType, h: Option<ReqId>): AtomInstance {
      match t
      case Link => this.(currentLinkRequest := h)
      case Compute => this.(currentComputeRequest := h)
    }

    function WithQueue(t: ResourceType, q: seq<ReqId>): AtomInstance {
      match t
      case Link => this.(linkRequestQueue := q)
      case Compute => this.(computeRequestQueue := q)
    }

    /** `queue.append(id)` on the FIFO of type t. */
    function Enqueue(t: ResourceType, id: ReqId): AtomInstance {
      WithQueue(t, Queue(t) + [id])
    }

    /** `current = queue.popleft()` on type t. */
    function PopToCurrent(t: ResourceType): AtomInstance
      requires Queue(t) != []
    {
      WithCurrent(t, Some(Queue(t)[0])).WithQueue(t, Queue(t)[1..])
    }
  }

  /** A freshly created atom: empty FIFOs, no holders. */
  const Idle := AtomInstance([], [], None, None)

  type Atoms = map<AtomId, AtomInstance>

  predicate Distinct<T(==)>(s: seq<T>) {
    forall i, j :: 0 <= i < j < |s| ==> s[i] != s[j]
  }

  /**
   * What the pass demands of a request's ids: every id names an atom of the
   * table, and when the request has a type they are distinct (a repeated id
   * trips the holder assert at Atom.py:126/130).
   */
  predicate IdsOk(keys: set<AtomId>, rt: Option<ResourceType>, ids: seq<AtomId>) {
    (forall x <- ids :: x in keys) && (rt.Some? ==> Distinct(ids))
  }

  predicate TicketOk(keys: set<AtomId>, w: Ticket) {
    IdsOk(keys, w.resourceType, w.resourcesId)
  }

  predicate AcquireOk(keys: set<AtomId>, r: ResourceRequest) {
    IdsOk(keys, r.resourceType, r.resourcesId)
  }

  /** A release only looks the atoms up when it has a type. */
  predicate ReleaseOk(keys: set<AtomId>, r: ResourceRequest) {
    r.resourceType.Some? ==> forall x <- r.resourcesId :: x in keys
  }

  /** Ticket w asks for resource t of atom a. */
  predicate Names(w: Ticket, a: AtomId, t: ResourceType) {
    w.resourceType == Some(t) && a in w.resourcesId
  }

  /** Tickets in strictly increasing arrival order (so also pairwise distinct). */
  predicate Increasing(ws: seq<Ticket>) {
    forall i, j :: 0 <= i < j < |ws| ==> ws[i].id < ws[j].id
  }

  // ---------------------------------------------------------------------------
  // Releases (Atom.py:85-90)

  /** Clear the holder of type rt on every atom in ids, in order. */
  function ClearHolders(atoms: Atoms, rt: Option<ResourceType>, ids: seq<AtomId>): (r: Atoms)
    requires rt.Some? ==> forall x <- ids :: x in atoms
    ensures r.Keys == atoms.Keys
    ensures forall a :: a in atoms ==>
      r[a] == if rt.Some? && a in ids then atoms[a].WithCurrent(rt.value, None) else atoms[a]
    decreases |ids|
  {
    if ids == [] then atoms
    else
      var prior := ClearHolders(atoms, rt, ids[..|ids| - 1]);
      var id := ids[|ids| - 1];
      match rt
      case None => prior
      case Some(t) => prior[id := prior[id].WithCurrent(t, None)]
  }

  /** Some release of the batch names resource t of atom a. */
  ghost predicate ReleasedBy(rs: seq<ResourceRequest>, a: AtomId, t: ResourceType) {
    exists k :: 0 <= k < |rs| && rs[k].resourceType == Some(t) && a in rs[k].resourcesId
  }

  /** Splitting a batch of releases into its prefix and its last request. */
  lemma ReleasedBySnoc(rs: seq<ResourceRequest>)
    requires rs != []
    ensures forall a, t :: ReleasedBy(rs, a, t) <==>
      ReleasedBy(rs[..|rs| - 1], a, t) ||
      (rs[|rs| - 1].resourceType == Some(t) && a in rs[|rs| - 1].resourcesId)
  {
    var init := rs[..|rs| - 1];
    forall a, t ensures ReleasedBy(rs, a, t) ==>
      ReleasedBy(init, a, t) || (rs[|rs| - 1].resourceType == Some(t) && a in rs[|rs| - 1].resourcesId) {
      if ReleasedBy(rs, a, t) {
        var k :| 0 <= k < |rs| && rs[k].resourceType == Some(t) && a in rs[k].resourcesId;
        if k < |rs| - 1 {
          assert init[k] == rs[k];
        }
      }
    }
    forall a, t ensures ReleasedBy(init, a, t) ==> ReleasedBy(rs, a, t) {
      if ReleasedBy(init, a, t) {
        var k :| 0 <= k < |init| && init[k].resourceType == Some(t) && a in init[k].resourcesId;
        assert rs[k] == init[k];
      }
    }
  }

  /**
   * Apply a batch of releases: each named holder of the named type is cleared,
   * whoever held it; FIFOs and the other type are left alone.
   */
  function ApplyReleases(atoms: Atoms, rs: seq<ResourceRequest>): (r: Atoms)
    requires forall k :: 0 <= k < |rs| ==> ReleaseOk(atoms.Keys, rs[k])
    ensures r.Keys == atoms.Keys
    ensures forall a, t :: a in atoms ==> r[a].Queue(t) == atoms[a].Queue(t)
    ensures forall a, t :: a in atoms ==>
      r[a].Current(t) == if ReleasedBy(rs, a, t) then None else atoms[a].Current(t)
    decreases |rs|
  {
    if rs == [] then atoms
    else
      var prior := ApplyReleases(atoms, rs[..|rs| - 1]);
      var last := rs[|rs| - 1];
      ReleasedBySnoc(rs);
      assert ReleaseOk(atoms.Keys, rs[|rs| - 1]);
      ClearHolders(prior, last.resourceType, last.resourcesId)
  }

  // ---------------------------------------------------------------------------
  // Registration (Atom.py:93-99)

  /** The ids, in order, of the tickets of ws that ask for resource t of atom a. */
  function Project(ws: seq<Ticket>, a: AtomId, t: ResourceType): seq<ReqId>
    decreases |ws|
  {
    if ws == [] then []
    else
      Project(ws[..|ws| - 1], a, t) + (if Names(ws[|ws| - 1], a, t) then [ws[|ws| - 1].id] else [])
  }

  /** Append id to the type-t FIFO of every atom in ids. */
  function EnqueueAll(atoms: Atoms, t: ResourceType, id: ReqId, ids: seq<AtomId>): (r: Atoms)
    requires forall x <- ids :: x in atoms
    requires Distinct(ids)
    ensures r.Keys == atoms.Keys
    ensures forall a :: a in atoms ==> r[a] == if a in ids then atoms[a].Enqueue(t, id) else atoms[a]
    decreases |ids|
  {
    if ids == [] then atoms
    else
      var prior := EnqueueAll(atoms, t, id, ids[..|ids| - 1]);
      var x := ids[|ids| - 1];
      prior[x := prior[x].Enqueue(t, id)]
  }

  function RegisterTicket(atoms: Atoms, w: Ticket): (r: Atoms)
    requires TicketOk(atoms.Keys, w)
    ensures r.Keys == atoms.Keys
    ensures forall a, t :: a in atoms ==>
      r[a].Current(t) == atoms[a].Current(t) &&
      r[a].Queue(t) == atoms[a].Queue(t) + (if Names(w, a, t) then [w.id] else [])
  {
    match w.resourceType
    case None => atoms
    case Some(t) => EnqueueAll(atoms, t, w.id, w.resourcesId)
  }

  /**
   * Register a batch of tickets, in order: each lands once at the tail of the
   * matching FIFO of every atom it names; holders are untouched.
   */
  function RegisterTickets(atoms: Atoms, ts: seq<Ticket>): (r: Atoms)
    requires forall k :: 0 <= k < |ts| ==> TicketOk(atoms.Keys, ts[k])
    ensures r.Keys == atoms.Keys
    ensures forall a, t :: a in atoms ==>
      r[a].Current(t) == atoms[a].Current(t) && r[a].Queue(t) == atoms[a].Queue(t) + Project(ts, a, t)
    decreases |ts|
  {
    if ts == [] then atoms
    else
      var prior := RegisterTickets(atoms, ts[..|ts| - 1]);
      assert TicketOk(atoms.Keys, ts[|ts| - 1]);
      RegisterTicket(prior, ts[|ts| - 1])
  }

  /** The tickets of a batch of acquires, numbered in arrival order from first. */
  function MakeTickets(acquires: seq<ResourceRequest>, first: ReqId): (ts: seq<Ticket>)
    ensures |ts| == |acquires|
    ensures forall k :: 0 <= k < |ts| ==>
      ts[k].id == first + k && ts[k].resourceType == acquires[k].resourceType &&
      ts[k].resourcesId == acquires[k].resourcesId
    ensures forall keys: set<AtomId>, k :: 0 <= k < |ts| ==> (TicketOk(keys, ts[k]) <==> AcquireOk(keys, acquires[k]))
  {
    seq(|acquires|, k requires 0 <= k < |acquires| =>
      Ticket(first + k, acquires[k].resourceType, acquires[k].resourcesId))
  }

  // ---------------------------------------------------------------------------
  // Issue (Atom.py:103-131)

  /**
   * The issue test: for every named atom the resource is free and the ticket is
   * at the head of that atom's FIFO. A ticket with no type passes vacuously.
   */
  predicate CanIssue(atoms: Atoms, w: Ticket)
    requires forall x <- w.resourcesId :: x in atoms
  {
    match w.resourceType
    case None => true
    case Some(t) =>
      forall x <- w.resourcesId ::
        !atoms[x].InUse(t) && atoms[x].Queue(t) != [] && atoms[x].Queue(t)[0] == w.id
  }

  /** On every atom in ids, pop the type-t FIFO head into the current holder. */
  function GrantIds(atoms: Atoms, t: ResourceType, ids: seq<AtomId>): (r: Atoms)
    requires forall x <- ids :: x in atoms && atoms[x].Queue(t) != []
    requires Distinct(ids)
    ensures r.Keys == atoms.Keys
    ensures forall a :: a in atoms ==> r[a] == if a in ids then atoms[a].PopToCurrent(t) else atoms[a]
    decreases |ids|
  {
    if ids == [] then atoms
    else
      var prior := GrantIds(atoms, t, ids[..|ids| - 1]);
      var x := ids[|ids| - 1];
      assert x !in ids[..|ids| - 1];
      prior[x := prior[x].PopToCurrent(t)]
  }

  /**
   * Grant an issuable ticket: every named atom's holder becomes the ticket and
   * its FIFO loses exactly its head; other atoms and the other type are unchanged.
   */
  function Grant(atoms: Atoms, w: Ticket): (r: Atoms)
    requires TicketOk(atoms.Keys, w)
    requires CanIssue(atoms, w)
    ensures r.Keys == atoms.Keys
    ensures forall a, t :: a in atoms ==>
      if Names(w, a, t) then
        r[a].Current(t) == Some(w.id) && r[a].Queue(t) == atoms[a].Queue(t)[1..]
      else
        r[a].Current(t) == atoms[a].Current(t) && r[a].Queue(t) == atoms[a].Queue(t)
  {
    match w.resourceType
    case None => atoms
    case Some(t) => GrantIds(atoms, t, w.resourcesId)
  }

  datatype ScanResult = ScanResult(atoms: Atoms, issued: seq<Ticket>)

  /**
   * The issue scan over the waiting list in arrival order. Each ticket is tested
   * against the state left by the grants before it; a ticket that fails is skipped
   * without changing anything.
   */
  function Scan(atoms: Atoms, ws: seq<Ticket>): (r: ScanResult)
    requires forall w <- ws :: TicketOk(atoms.Keys, w)
    ensures r.atoms.Keys == atoms.Keys
    decreases |ws|
  {
    if ws == [] then ScanResult(atoms, [])
    else
      var prior := Scan(atoms, ws[..|ws| - 1]);
      var w := ws[|ws| - 1];
      assert w in ws;
      assert TicketOk(prior.atoms.Keys, w);
      if CanIssue(prior.atoms, w) then ScanResult(Grant(prior.atoms, w), prior.issued + [w])
      else prior
  }

  // ---------------------------------------------------------------------------
  // Removal of issued tickets (Atom.py:136-137)

  /** Keeping some of the earlier tickets of an increasing list, then its last one. */
  lemma IncreasingSnoc(ws: seq<Ticket>, kept: seq<Ticket>)
    requires ws != [] && forall x <- kept :: x in ws[..|ws| - 1]
    ensures Increasing(ws) ==> Increasing(ws[..|ws| - 1])
    ensures Increasing(ws) && Increasing(kept) ==> Increasing(kept + [ws[|ws| - 1]])
  {
    var w := ws[|ws| - 1];
    if Increasing(ws) {
      forall x <- kept ensures x.id < w.id {
        var k :| 0 <= k < |ws| - 1 && ws[..|ws| - 1][k] == x;
        assert ws[k] == x;
      }
      if Increasing(kept) {
        var r := kept + [w];
        forall i, j | 0 <= i < j < |r| ensures r[i].id < r[j].id {
          if j < |kept| {
            assert r[i] == kept[i] && r[j] == kept[j];
          } else {
            assert r[i] in kept;
          }
        }
      }
    }
  }

  /** The tickets of ws that are not in iss, in their order in ws. */
  function Without(ws: seq<Ticket>, iss: seq<Ticket>): (r: seq<Ticket>)
    ensures forall x :: x in r <==> x in ws && x !in iss
    ensures Increasing(ws) ==> Increasing(r)
    decreases |ws|
  {
    if ws == [] then []
    else
      var prior := Without(ws[..|ws| - 1], iss);
      var w := ws[|ws| - 1];
      assert forall x :: x in ws <==> x in ws[..|ws| - 1] || x == w by {
        assert ws == ws[..|ws| - 1] + [w];
      }
      IncreasingSnoc(ws, prior);
      prior + (if w in iss then [] else [w])
  }

  /** The first position of x in s. */
  function IndexOf<T(==)>(s: seq<T>, x: T): (i: nat)
    requires x in s
    ensures i < |s| && s[i] == x && x !in s[..i]
  {
    if s[0] == x then 0 else 1 + IndexOf(s[1..], x)
  }

  /** `deque.remove(x)`: drop the first occurrence of x. */
  function Remove<T(==)>(s: seq<T>, x: T): seq<T>
    requires x in s
  {
    var i := IndexOf(s, x);
    s[..i] + s[i + 1..]
  }

  // ---------------------------------------------------------------------------
  // Notification (Atom.py:134, which sits inside the loop over the ticket's ids)

  /** One notify call per named id of every issued ticket, in grant order. */
  function Notifications(iss: seq<Ticket>): seq<ReqId>
    decreases |iss|
  {
    if iss == [] then []
    else
      var w := iss[|iss| - 1];
      Notifications(iss[..|iss| - 1]) + seq(|w.resourcesId|, _ => w.id)
  }

  // ---------------------------------------------------------------------------
  // One whole pass

  datatype ArbiterState = ArbiterState(atoms: Atoms, waiting: seq<Ticket>, nextId: ReqId)

  datatype PassOutcome = PassOutcome(state: ArbiterState, issued: seq<Ticket>, notified: seq<ReqId>)

  predicate BatchOk(keys: set<AtomId>, releases: seq<ResourceRequest>, acquires: seq<ResourceRequest>) {
    (forall k :: 0 <= k < |releases| ==> ReleaseOk(keys, releases[k])) &&
    (forall k :: 0 <= k < |acquires| ==> AcquireOk(keys, acquires[k]))
  }

  /** The waiting list the issue scan walks: old waiters, then this batch's tickets. */
  function Queued(s: ArbiterState, acquires: seq<ResourceRequest>): seq<Ticket> {
    s.waiting + MakeTickets(acquires, s.nextId)
  }

  /** The atom table the issue scan starts from: releases applied, then acquires registered. */
  function Registered(s: ArbiterState, releases: seq<ResourceRequest>, acquires: seq<ResourceRequest>): (r: Atoms)
    requires BatchOk(s.atoms.Keys, releases, acquires)
    ensures r.Keys == s.atoms.Keys
  {
    var ts := MakeTickets(acquires, s.nextId);
    RegisterTickets(ApplyReleases(s.atoms, releases), ts)
  }

  /**
   * One arbitration pass: all releases, then all registrations, then the issue
   * scan over the whole waiting list, then removal of the issued tickets.
   */
  function PassSpec(s: ArbiterState, releases: seq<ResourceRequest>, acquires: seq<ResourceRequest>): PassOutcome
    requires BatchOk(s.atoms.Keys, releases, acquires)
    requires forall w <- s.waiting :: TicketOk(s.atoms.Keys, w)
  {
    var ws := Queued(s, acquires);
    var atoms := Registered(s, releases, acquires);
    assert forall w <- ws :: TicketOk(atoms.Keys, w) by {
      forall w <- ws ensures TicketOk(atoms.Keys, w) {
        if w !in s.waiting {
          var ts := MakeTickets(acquires, s.nextId);
          assert w in ts;
          var k :| 0 <= k < |ts| && ts[k] == w;
          assert AcquireOk(s.atoms.Keys, acquires[k]);
        }
      }
    }
    var sc := Scan(atoms, ws);
    PassOutcome(
      ArbiterState(sc.atoms, Without(ws, sc.issued), s.nextId + |acquires|),
      sc.issued,
      Notifications(sc.issued))
  }

  // ---------------------------------------------------------------------------
  // The arbiter's invariant

  ghost predicate IsWaiting(ws: seq<Ticket>, id: ReqId) {
    exists i :: 0 <= i < |ws| && ws[i].id == id
  }

  /** Each atom's per-type FIFO holds exactly the waiting tickets that name it, in order. */
  ghost predicate QueuesMatch(atoms: Atoms, ws: seq<Ticket>) {
    forall a, t :: a in atoms ==> atoms[a].Queue(t) == Project(ws, a, t)
  }

  /** A holder is an issued request: numbered already, and no longer waiting. */
  ghost predicate HoldersIssued(atoms: Atoms, ws: seq<Ticket>, nextId: ReqId) {
    forall a, t :: a in atoms && atoms[a].Current(t).Some? ==>
      atoms[a].Current(t).value < nextId && !IsWaiting(ws, atoms[a].Current(t).value)
  }

  ghost predicate Inv(s: ArbiterState) {
    && (forall w <- s.waiting :: TicketOk(s.atoms.Keys, w) && w.id < s.nextId)
    && Increasing(s.waiting)
    && QueuesMatch(s.atoms, s.waiting)
    && HoldersIssued(s.atoms, s.waiting, s.nextId)
  }
}
