/** The CRDT as the sync layer sees it.  An update is a finite set of operations, each naming the
    blocks it needs integrated first.  A document knows a set of operations; it shows the least
    set closed under "everything I need is shown" and parks the rest until it heals. */
module Crdt {

  /** A block's identity: the client that wrote it and that client's clock. */
  datatype Id = Id(client: nat, clock: nat)

  /** `refs` are the blocks an insertion needs: its left and right origins, its parent, and,
      unless the update hid a hole before it, its client's previous clock. */
  datatype Op =
    | Insert(id: Id, refs: set<Id>)
    | Delete(target: Id)

  type Update = set<Op>

  function Needs(o: Op): set<Id> {
    match o
    case Insert(_, refs) => refs
    case Delete(target) => {target}
  }

  function Ids(ops: set<Op>): set<Id> {
    set o | o in ops && o.Insert? :: o.id
  }

  /** Block identities are unique: nobody writes two different blocks under one id. */
  ghost predicate Coherent(ops: set<Op>) {
    forall a, b :: a in ops && b in ops && a.Insert? && b.Insert? && a.id == b.id ==> a == b
  }

  // ---------------------------------------------------------------- integration

  /** The operations of `known` that can integrate on top of `shown`. */
  function Ready(known: set<Op>, shown: set<Op>): set<Op> {
    set o | o in known && Needs(o) <= Ids(shown)
  }

  /** Retry parked operations until nothing more integrates. */
  function Grow(known: set<Op>, shown: set<Op>): (r: set<Op>)
    requires shown <= Ready(known, shown)
    ensures shown <= r <= known
    ensures Ready(known, r) == r
    decreases known - shown
  {
    var next := Ready(known, shown);
    if next == shown then shown
    else
      ReadyMonotone(known, shown, known, next);
      Grow(known, next)
  }

  function Integrated(known: set<Op>): (r: set<Op>)
    ensures r <= known
    ensures Ready(known, r) == r
  {
    Grow(known, {})
  }

  /** Nothing is parked: the set is causally complete. */
  predicate Closed(ops: set<Op>) {
    Integrated(ops) == ops
  }

  lemma ReadyMonotone(k: set<Op>, s: set<Op>, l: set<Op>, t: set<Op>)
    requires k <= l && s <= t
    ensures Ready(k, s) <= Ready(l, t)
  {
    assert Ids(s) <= Ids(t);
  }

  /** Integration is the least closed set, so it sits inside every set that keeps whatever it can. */
  lemma {:induction false} IntegrationIsLeast(known: set<Op>, shown: set<Op>, p: set<Op>)
    requires shown <= Ready(known, shown)
    requires shown <= p && Ready(known, p) <= p
    ensures Grow(known, shown) <= p
    decreases known - shown
  {
    var next := Ready(known, shown);
    if next != shown {
      ReadyMonotone(known, shown, known, p);
      ReadyMonotone(known, shown, known, next);
      IntegrationIsLeast(known, next, p);
    }
  }

  lemma IntegratedMonotone(k: set<Op>, l: set<Op>)
    requires k <= l
    ensures Integrated(k) <= Integrated(l)
  {
    ReadyMonotone(k, Integrated(l), l, Integrated(l));
    IntegrationIsLeast(k, {}, Integrated(l));
  }

  lemma IntegratedIsClosed(k: set<Op>)
    ensures Closed(Integrated(k))
  {
    var inner := Integrated(Integrated(k));
    ReadyMonotone(k, inner, k, Integrated(k));
    assert Ready(k, inner) <= Ready(Integrated(k), inner);
    IntegrationIsLeast(k, {}, inner);
  }

  /** A causally complete part of what a document knows is always shown. */
  lemma ClosedPartIsShown(part: set<Op>, k: set<Op>)
    requires part <= k && Closed(part)
    ensures part <= Integrated(k)
  {
    IntegratedMonotone(part, k);
  }

  lemma ClosedUnion(a: set<Op>, b: set<Op>)
    requires Closed(a) && Closed(b)
    ensures Closed(a + b)
  {
    ClosedPartIsShown(a, a + b);
    ClosedPartIsShown(b, a + b);
  }

  /** Integrating on top of what is already shown reaches the same set as starting over. */
  lemma ResumeEqualsRestart(shown: set<Op>, known: set<Op>)
    requires shown <= Integrated(known) && Closed(shown)
    ensures shown <= Ready(known, shown)
    ensures Grow(known, shown) == Integrated(known)
  {
    ReadyMonotone(shown, shown, known, shown);
    IntegrationIsLeast(known, shown, Integrated(known));
    IntegrationIsLeast(known, {}, Grow(known, shown));
  }

  lemma {:induction false} ClosedNeeds(ops: set<Op>, o: Op)
    requires Closed(ops) && o in ops
    ensures Needs(o) <= Ids(ops)
  {
    assert o in Ready(ops, ops);
  }

  // ---------------------------------------------------------------- documents

  /** A live document: what it shows and what it has parked. */
  datatype Doc = Doc(shown: set<Op>, parked: set<Op>) {

    function Known(): set<Op> { shown + parked }

    ghost predicate Valid() {
      shown == Integrated(Known()) && shown !! parked
    }

    predicate Pending() { parked != {} }

    /** Apply an update: integrate what can be, together with anything parked that it unblocks. */
    function Apply(u: Update): (r: Doc)
      requires Valid()
      ensures r.Valid()
      ensures r.Known() == Known() + u
      ensures shown <= r.shown
    {
      var known := Known() + u;
      IntegratedIsClosed(Known());
      IntegratedMonotone(Known(), known);
      ResumeEqualsRestart(shown, known);
      var next := Grow(known, shown);
      assert next + (known - next) == known;
      Doc(next, known - next)
    }

    /** `encode_state_as_update`: lossless, the parked operations ride along. */
    function Encode(): Update { Known() }

    /** `compacted_state_update`: gap-free, the parked operations are left out. */
    function Compacted(): Update { shown }
  }

  const EMPTY_DOC: Doc := Doc({}, {})

  function ApplyAll(doc: Doc, updates: seq<Update>): (r: Doc)
    requires doc.Valid()
    ensures r.Valid()
    decreases updates
  {
    if updates == [] then doc else ApplyAll(doc.Apply(updates[0]), updates[1..])
  }

  function Union(updates: seq<Update>): Update {
    if updates == [] then {} else updates[0] + Union(updates[1..])
  }

  lemma {:induction false} ApplyAllKnows(doc: Doc, updates: seq<Update>)
    requires doc.Valid()
    ensures ApplyAll(doc, updates).Known() == doc.Known() + Union(updates)
    decreases updates
  {
    if updates != [] {
      ApplyAllKnows(doc.Apply(updates[0]), updates[1..]);
    }
  }

  /** Delivery order and duplication do not matter: two histories with the same operations leave
      the same document, shown and parked alike. */
  lemma Convergence(doc: Doc, a: seq<Update>, b: seq<Update>)
    requires doc.Valid() && Union(a) == Union(b)
    ensures ApplyAll(doc, a) == ApplyAll(doc, b)
  {
    ApplyAllKnows(doc, a);
    ApplyAllKnows(doc, b);
    var x, y := ApplyAll(doc, a), ApplyAll(doc, b);
    assert x.parked == x.Known() - x.shown && y.parked == y.Known() - y.shown;
  }

  /** A gap heals exactly when everything parked becomes reachable. */
  lemma PendingIffGap(doc: Doc)
    requires doc.Valid()
    ensures doc.Pending() <==> !Closed(doc.Known())
  {
    assert doc.parked == doc.Known() - doc.shown;
  }

  // ---------------------------------------------------------------- state vectors

  /** The first clock of `client` from `n` on that `ids` lacks. */
  function FirstGap(ids: set<Id>, client: nat, n: nat): (r: nat)
    ensures n <= r
    ensures forall m :: n <= m < r ==> Id(client, m) in ids
    ensures Id(client, r) !in ids
    decreases ids
  {
    if Id(client, n) in ids then FirstGap(ids - {Id(client, n)}, client, n + 1) else n
  }

  /** How far a set of operations covers a client without a hole. */
  function Clock(ops: set<Op>, client: nat): nat {
    FirstGap(Ids(ops), client, 0)
  }

  function Clients(ops: set<Op>): set<nat> {
    set i | i in Ids(ops) :: i.client
  }

  type StateVector = map<nat, nat>

  function Vector(ops: set<Op>): StateVector {
    map c | c in Clients(ops) && Clock(ops, c) > 0 :: Clock(ops, c)
  }

  function At(sv: StateVector, client: nat): nat {
    if client in sv then sv[client] else 0
  }

  predicate Covers(a: StateVector, b: StateVector) {
    forall c :: c in b ==> At(a, c) >= b[c]
  }

  lemma VectorAt(ops: set<Op>, client: nat)
    ensures At(Vector(ops), client) == Clock(ops, client)
  {
    if Clock(ops, client) > 0 {
      assert Id(client, 0) in Ids(ops);
    }
  }

  lemma ClockIs(ops: set<Op>, client: nat, n: nat)
    requires forall m :: 0 <= m < n ==> Id(client, m) in Ids(ops)
    requires Id(client, n) !in Ids(ops)
    ensures Clock(ops, client) == n
  {
    var k := Clock(ops, client);
    assert Id(client, k) !in Ids(ops);
    assert n < k ==> Id(client, n) in Ids(ops);
  }

  lemma ClockMonotone(a: set<Op>, b: set<Op>, client: nat)
    requires a <= b
    ensures Clock(a, client) <= Clock(b, client)
  {
    var k := Clock(b, client);
    assert Ids(a) <= Ids(b);
    assert Id(client, k) !in Ids(b);
    assert Id(client, k) !in Ids(a);
  }

  /** `encode_state_as_update(sv)`: everything the holder of `sv` has not integrated, and every
      deletion, which a state vector says nothing about. */
  function Diff(known: set<Op>, sv: StateVector): Update {
    set o | o in known && (o.Delete? || o.id.clock >= At(sv, o.id.client))
  }

  /** Whoever holds `ops` has integrated everything below `sv`. */
  ghost predicate Backed(sv: StateVector, ops: set<Op>) {
    forall x, n: nat :: n < At(sv, x) ==> Id(x, n) in Ids(ops)
  }

  lemma BackedGrows(sv: StateVector, a: set<Op>, b: set<Op>)
    requires Backed(sv, a) && a <= b
    ensures Backed(sv, b)
  {
    assert Ids(a) <= Ids(b);
  }

  lemma VectorIsBacked(ops: set<Op>)
    ensures Backed(Vector(ops), ops)
  {
    forall x, n: nat | n < At(Vector(ops), x) ensures Id(x, n) in Ids(ops) {
      VectorAt(ops, x);
    }
  }

  /** What a diff leaves out, the peer behind the state vector already has. */
  lemma DiffLeavesOutBacked(known: set<Op>, sv: StateVector, peer: set<Op>)
    requires Backed(sv, peer) && Coherent(known + peer)
    ensures known <= Diff(known, sv) + peer
  {
    forall o | o in known && o !in Diff(known, sv) ensures o in peer {
      assert Id(o.id.client, o.id.clock) in Ids(peer);
      var p :| p in peer && p.Insert? && p.id == o.id;
      assert p in known + peer && o in known + peer;
    }
  }
}
