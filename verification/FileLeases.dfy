/** Write leases on paths: overlapping paths never belong to two runs at once, and fences order
    the leases that are in the table. */
module FileLeases {
  import opened Prelude
  import opened Ordering

  /** The components of a resolved path. */
  type Path = seq<nat>

  datatype LeaseRow = LeaseRow(owner: nat, fence: nat, expires: I64)

  datatype FileLease = FileLease(path: Path, owner: nat, fence: nat, expires: I64)

  datatype LeaseError = PathRejected | LeaseConflict(path: Path)

  type Table = map<Path, LeaseRow>

  /** One path is the other or lies under it. */
  predicate Overlap(left: Path, right: Path) {
    left == right || right <= left || left <= right
  }

  function Live(leases: Table, now: I64): Table {
    map p | p in leases && leases[p].expires > now :: leases[p]
  }

  function Fences(leases: Table): set<nat> {
    set p | p in leases :: leases[p].fence
  }

  predicate Blocked(leases: Table, path: Path, owner: nat) {
    exists p :: p in leases && leases[p].owner != owner && Overlap(p, path)
  }

  /** The handle an unblocked request receives. */
  function Grant(live: Table, path: Path, owner: nat, now: I64, ttl: I64): FileLease {
    FileLease(path, owner, Greatest(Fences(live)) + 1, SatAddI64(now, Max(ttl, 1)))
  }

  function RowOf(lease: FileLease): LeaseRow {
    LeaseRow(lease.owner, lease.fence, lease.expires)
  }

  function AcquireOutcome(leases: Table, path: Option<Path>, owner: nat, now: I64, ttl: I64): (Table,
      Result<FileLease, LeaseError>)
  {
    if path.None? then (leases, Err(PathRejected))
    else
      var live := Live(leases, now);
      if Blocked(live, path.value, owner) then (leases, Err(LeaseConflict(path.value)))
      else
        var lease := Grant(live, path.value, owner, now, ttl);
        (live[lease.path := RowOf(lease)], Ok(lease))
  }

  predicate Matches(leases: Table, lease: FileLease) {
    lease.path in leases && leases[lease.path].owner == lease.owner && leases[lease.path].fence == lease.fence
  }

  function ReleaseOutcome(leases: Table, lease: FileLease): (Table, bool) {
    if Matches(leases, lease) then (leases - {lease.path}, true) else (leases, false)
  }

  // ---------------------------------------------------------------- the invariant

  /** Different runs hold disjoint parts of the tree and no two leases share a fence. */
  ghost predicate Exclusive(leases: Table) {
    && (forall p, q :: p in leases && q in leases && leases[p].owner != leases[q].owner ==> !Overlap(p, q))
    && (forall p, q :: p in leases && q in leases && leases[p].fence == leases[q].fence ==> p == q)
  }

  lemma AcquireKeepsExclusive(leases: Table, path: Option<Path>, owner: nat, now: I64, ttl: I64)
    requires Exclusive(leases)
    ensures Exclusive(AcquireOutcome(leases, path, owner, now, ttl).0)
  {
    if path.Some? {
      var live := Live(leases, now);
      forall p | p in live ensures live[p].fence <= Greatest(Fences(live)) {
        assert live[p].fence in Fences(live);
      }
      if !Blocked(live, path.value, owner) {
        assert forall p :: p in live && live[p].owner != owner ==> !Overlap(p, path.value);
      }
    }
  }

  // ---------------------------------------------------------------- the manager

  class FileLeaseManager {
    var leases: Table

    ghost predicate Valid()
      reads this
    {
      Exclusive(leases)
    }

    constructor ()
      ensures Valid() && leases == map[]
    {
      leases := map[];
    }

    /** The expiry sweep and the insertion are one transaction: a refusal undoes both. */
    method Acquire(path: Option<Path>, owner: nat, now: I64, ttl: I64) returns (r: Result<FileLease, LeaseError>)
      requires Valid()
      modifies this
      ensures Valid()
      ensures (leases, r) == AcquireOutcome(old(leases), path, owner, now, ttl)
    {
      AcquireKeepsExclusive(leases, path, owner, now, ttl);
      if path.None? {
        return Err(PathRejected);
      }
      var committed := leases;
      leases := Live(leases, now);
      if exists p :: p in leases && leases[p].owner != owner && Overlap(p, path.value) {
        leases := committed;
        return Err(LeaseConflict(path.value));
      }
      var fence := Greatest(Fences(leases)) + 1;
      var expires := SatAddI64(now, Max(ttl, 1));
      leases := leases[path.value := LeaseRow(owner, fence, expires)];
      r := Ok(FileLease(path.value, owner, fence, expires));
    }

    method Release(lease: FileLease) returns (released: bool)
      requires Valid()
      modifies this
      ensures Valid()
      ensures (leases, released) == ReleaseOutcome(old(leases), lease)
    {
      released := Matches(leases, lease);
      if released {
        leases := leases - {lease.path};
      }
    }
  }

  // ---------------------------------------------------------------- histories

  datatype Op = AcquireOp(path: Option<Path>, owner: nat, now: I64, ttl: I64) | ReleaseOp(lease: FileLease)

  function Step(leases: Table, op: Op): Table {
    match op
    case AcquireOp(path, owner, now, ttl) => AcquireOutcome(leases, path, owner, now, ttl).0
    case ReleaseOp(lease) => ReleaseOutcome(leases, lease).0
  }

  function From(leases: Table, ops: seq<Op>): Table {
    if ops == [] then leases else Step(From(leases, ops[..|ops| - 1]), ops[|ops| - 1])
  }

  function After(ops: seq<Op>): Table {
    From(map[], ops)
  }

  /** Whatever the clock readings are, no reachable table lets two runs share a part of the tree. */
  lemma {:induction false} LeasesAreExclusive(ops: seq<Op>)
    ensures Exclusive(After(ops))
  {
    if ops != [] {
      LeasesAreExclusive(ops[..|ops| - 1]);
      var op := ops[|ops| - 1];
      if op.AcquireOp? {
        AcquireKeepsExclusive(After(ops[..|ops| - 1]), op.path, op.owner, op.now, op.ttl);
      }
    }
  }

  /** A request is refused exactly when another run holds an overlapping live lease, and then
      nothing changes, not even the expired rows; a granted lease is newer than every live one
      and leaves the other live leases as they were. */
  lemma GrantedOrUnchanged(ops: seq<Op>, path: Path, owner: nat, now: I64, ttl: I64)
    ensures
      var r := AcquireOutcome(After(ops), Some(path), owner, now, ttl);
      r.1.Err? <==>
        exists p :: p in After(ops) && After(ops)[p].expires > now && After(ops)[p].owner != owner && Overlap(p, path)
    ensures var r := AcquireOutcome(After(ops), Some(path), owner, now, ttl); r.1.Err? ==> r.0 == After(ops)
    ensures
      var r := AcquireOutcome(After(ops), Some(path), owner, now, ttl);
      r.1.Ok? ==>
        && path in r.0
        && r.0[path] == RowOf(r.1.value)
        && forall p ::
             p in r.0 && p != path ==>
               p in After(ops) && r.0[p] == After(ops)[p] && r.0[p].expires > now && r.0[p].fence < r.1.value.fence
    ensures
      var r := AcquireOutcome(After(ops), Some(path), owner, now, ttl);
      r.1.Ok? ==>
        forall p :: p in After(ops) && After(ops)[p].expires > now ==> p in r.0 && After(ops)[p].fence < r.1.value.fence
  {
    var live := Live(After(ops), now);
    assert forall p :: p in After(ops) && After(ops)[p].expires > now ==> p in live;
    forall p | p in live ensures live[p].fence <= Greatest(Fences(live)) {
      assert live[p].fence in Fences(live);
    }
  }

  /** A handle, however old, can only remove a lease of its own run on its own path. */
  lemma ReleaseRemovesOnlyItsOwn(ops: seq<Op>, lease: FileLease, p: Path)
    requires p in After(ops)
    ensures p !in ReleaseOutcome(After(ops), lease).0 <==>
        p == lease.path && After(ops)[p].owner == lease.owner && After(ops)[p].fence == lease.fence
    ensures p in ReleaseOutcome(After(ops), lease).0 ==> ReleaseOutcome(After(ops), lease).0[p] == After(ops)[p]
    ensures p == lease.path ==> (ReleaseOutcome(After(ops), lease).1 <==> p !in ReleaseOutcome(After(ops), lease).0)
    ensures lease.path !in After(ops) ==> ReleaseOutcome(After(ops), lease) == (After(ops), false)
  {
  }

  // ---------------------------------------------------------------- a lease stands until it is given up

  /** A step before time `end` that neither releases nor renews a lease. */
  predicate LeavesAlone(lease: FileLease, end: int, op: Op) {
    match op
    case AcquireOp(path, owner, now, ttl) => now < end && !(path == Some(lease.path) && owner == lease.owner)
    case ReleaseOp(other) => !(other.path == lease.path && other.owner == lease.owner && other.fence == lease.fence)
  }

  ghost predicate Holds(leases: Table, lease: FileLease) {
    lease.path in leases && leases[lease.path] == RowOf(lease)
  }

  lemma {:induction false} LeaseStands(leases: Table, lease: FileLease, more: seq<Op>)
    requires Holds(leases, lease)
    requires forall op :: op in more ==> LeavesAlone(lease, lease.expires, op)
    ensures Holds(From(leases, more), lease)
  {
    if more != [] {
      LeaseStands(leases, lease, more[..|more| - 1]);
      var before, op := From(leases, more[..|more| - 1]), more[|more| - 1];
      assert LeavesAlone(lease, lease.expires, op);
      if op.AcquireOp? && op.path == Some(lease.path) && !Blocked(Live(before, op.now), lease.path, op.owner) {
        assert lease.path in Live(before, op.now);
        assert Overlap(lease.path, lease.path);
      }
    }
  }

  /** A granted lease is the run's, on the path, and runs for the time asked, at least one
      millisecond, up to the end of the clock. */
  lemma GrantedUntil(ops: seq<Op>, path: Path, owner: nat, now: I64, ttl: I64)
    ensures
      var r := AcquireOutcome(After(ops), Some(path), owner, now, ttl);
      r.1.Ok? ==>
        && r.1.value.path == path && r.1.value.owner == owner
        && r.1.value.expires == Min(now + Max(ttl, 1), I64_MAX)
        && r.0[path].owner == owner && r.0[path].fence == r.1.value.fence && r.0[path].expires == r.1.value.expires
  {
  }

  /** Until `ttl` has passed after a grant at `now`, and while its run neither releases nor renews
      the lease, no other run can lease a path above it, below it or equal to it. */
  lemma NoTakeover(ops: seq<Op>, path: Path, owner: nat, now: I64, ttl: I64, more: seq<Op>, other: nat, wanted: Path,
      later: I64, ttl': I64)
    requires
      var r := AcquireOutcome(After(ops), Some(path), owner, now, ttl);
      r.1.Ok? && forall op :: op in more ==> LeavesAlone(r.1.value, Min(now + Max(ttl, 1), I64_MAX), op)
    requires later < Min(now + Max(ttl, 1), I64_MAX)
    requires other != owner && Overlap(path, wanted)
    ensures
      var held := From(AcquireOutcome(After(ops), Some(path), owner, now, ttl).0, more);
      AcquireOutcome(held, Some(wanted), other, later, ttl') == (held, Err(LeaseConflict(wanted)))
  {
    var r := AcquireOutcome(After(ops), Some(path), owner, now, ttl);
    GrantedUntil(ops, path, owner, now, ttl);
    LeaseStands(r.0, r.1.value, more);
    var live := Live(From(r.0, more), later);
    assert path in live && live[path].owner != other && Overlap(path, wanted);
  }

  /** A request without a usable path changes nothing. */
  lemma RejectedPath(leases: Table, owner: nat, now: I64, ttl: I64)
    ensures AcquireOutcome(leases, None, owner, now, ttl) == (leases, Err(PathRejected))
  {
  }

  /** The path is `p` or lies below it. */
  predicate Under(path: Path, p: Path) {
    p <= path
  }

  /** Two paths overlap exactly if some path lies under both of them. */
  lemma OverlapIff(p: Path, q: Path)
    ensures Overlap(p, q) <==> exists f: Path :: Under(f, p) && Under(f, q)
  {
    assert Under(p, p) && Under(q, q);
    if f: Path :| Under(f, p) && Under(f, q) {
      assert p == f[..|p|] && q == f[..|q|];
      if |p| <= |q| {
        assert p == q[..|p|];
      } else {
        assert q == p[..|q|];
      }
    }
  }

  /** At any time at most one run may write a given file: all leases over it belong to one run. */
  lemma OneWriterPerFile(ops: seq<Op>, file: Path, p: Path, q: Path)
    requires p in After(ops) && q in After(ops) && Under(file, p) && Under(file, q)
    ensures After(ops)[p].owner == After(ops)[q].owner
  {
    LeasesAreExclusive(ops);
    OverlapIff(p, q);
  }

  // ---------------------------------------------------------------- when fences are new

  /** The handles ever given out. */
  function Issued(ops: seq<Op>): set<FileLease> {
    if ops == [] then {}
    else
      var before, op := ops[..|ops| - 1], ops[|ops| - 1];
      Issued(before) +
      if op.AcquireOp? && AcquireOutcome(After(before), op.path, op.owner, op.now, op.ttl).1.Ok?
      then {AcquireOutcome(After(before), op.path, op.owner, op.now, op.ttl).1.value} else {}
  }

  function IssuedFences(ops: seq<Op>): set<nat> {
    set l | l in Issued(ops) :: l.fence
  }

  function HandleOf(leases: Table, p: Path): FileLease
    requires p in leases
  {
    FileLease(p, leases[p].owner, leases[p].fence, leases[p].expires)
  }

  /** Every row of the table is a handle that was given out. */
  lemma {:induction false} RowsWereIssued(ops: seq<Op>, p: Path)
    requires p in After(ops)
    ensures HandleOf(After(ops), p) in Issued(ops)
  {
    var before := ops[..|ops| - 1];
    if p in After(before) && After(before)[p] == After(ops)[p] {
      RowsWereIssued(before, p);
    }
  }

  /** A grant carries a fence above every fence ever given out exactly when the lease with the
      highest fence so far is still running. Otherwise the table has forgotten that fence. */
  lemma FenceIsNewIff(ops: seq<Op>, now: I64)
    ensures
      var next, highest := Greatest(Fences(Live(After(ops), now))) + 1, Greatest(IssuedFences(ops));
      (forall f :: f in IssuedFences(ops) ==> f < next) <==>
        || IssuedFences(ops) == {}
        || exists p :: p in After(ops) && After(ops)[p].expires > now && After(ops)[p].fence == highest
  {
    var live := Live(After(ops), now);
    var top := Greatest(IssuedFences(ops));
    forall p | p in live ensures live[p].fence in Fences(live) && live[p].fence in IssuedFences(ops) {
      RowsWereIssued(ops, p);
    }
    if IssuedFences(ops) != {} {
      FencesStartAtOne(ops, top);
      if top <= Greatest(Fences(live)) {
        var p :| p in live && live[p].fence == Greatest(Fences(live));
        assert After(ops)[p].fence == top;
      }
      assert forall p :: p in After(ops) && After(ops)[p].expires > now ==> p in live && live[p] == After(ops)[p];
    }
  }

  lemma {:induction false} FencesStartAtOne(ops: seq<Op>, f: nat)
    requires f in IssuedFences(ops)
    ensures f >= 1
  {
    var l :| l in Issued(ops) && l.fence == f;
    if l in Issued(ops[..|ops| - 1]) {
      assert f in IssuedFences(ops[..|ops| - 1]);
      FencesStartAtOne(ops[..|ops| - 1], f);
    }
  }

  /** Two handles the release statement cannot tell apart. */
  predicate Alike(a: FileLease, b: FileLease) {
    a.path == b.path && a.owner == b.owner && a.fence == b.fence
  }

  /** A handle removes a lease other than its own exactly when the table holds one that was given
      out and that the release statement cannot tell from it. */
  lemma WrongRemovalIff(ops: seq<Op>, lease: FileLease)
    ensures ReleaseOutcome(After(ops), lease).1 && !Holds(After(ops), lease) <==>
        exists g :: g in Issued(ops) && g != lease && Alike(g, lease) && Holds(After(ops), g)
  {
    if Matches(After(ops), lease) {
      RowsWereIssued(ops, lease.path);
      var g := HandleOf(After(ops), lease.path);
      assert g in Issued(ops) && Alike(g, lease) && Holds(After(ops), g);
    }
  }

  /** The handle the operation at position `k` gives out, if it gives one out. */
  function GrantAt(ops: seq<Op>, k: nat): Option<FileLease>
    requires k < |ops|
  {
    match ops[k]
    case AcquireOp(path, owner, now, ttl) =>
      var r := AcquireOutcome(After(ops[..k]), path, owner, now, ttl).1;
      if r.Ok? then Some(r.value) else None
    case ReleaseOp(_) => None
  }

  function Grants(ops: seq<Op>): nat -> Option<FileLease> {
    (k: nat) => if k < |ops| then GrantAt(ops, k) else None
  }

  lemma GrantsOfPrefix(ops: seq<Op>, n: nat, j: nat)
    requires j < n <= |ops|
    ensures Grants(ops[..n])(j) == Grants(ops)(j)
  {
    assert ops[..n][..j] == ops[..j];
  }

  predicate GrantsPath(grant: Option<FileLease>, p: Path) {
    grant.Some? && grant.value.path == p
  }

  /** A row of the table was granted by the last operation, or was there before it. */
  lemma GrantedOrThere(ops: seq<Op>, p: Path)
    requires p in After(ops)
    ensures ops != []
    ensures
      var last, before := Grants(ops)(|ops| - 1), After(ops[..|ops| - 1]);
      if GrantsPath(last, p) then last.value == HandleOf(After(ops), p)
      else p in before && before[p] == After(ops)[p]
  {
  }

  /** Operation `k` is the last of the first `n` that gave out a handle for the path. */
  ghost predicate LastGrant(grant: nat -> Option<FileLease>, n: nat, k: nat, p: Path) {
    k < n && GrantsPath(grant(k), p) && forall j: nat :: k < j < n ==> !GrantsPath(grant(j), p)
  }

  lemma LastGrantStays(before: nat -> Option<FileLease>, grant: nat -> Option<FileLease>, n: nat, k: nat, p: Path)
    requires LastGrant(before, n, k, p) && !GrantsPath(grant(n), p)
    requires forall j: nat :: j < n ==> before(j) == grant(j)
    ensures LastGrant(grant, n + 1, k, p)
  {
  }

  /** A row of the table is the last handle given out for its path. */
  lemma {:induction false} RowIsTheLastGrant(ops: seq<Op>, p: Path) returns (k: nat)
    requires p in After(ops)
    ensures LastGrant(Grants(ops), |ops|, k, p) && Grants(ops)(k) == Some(HandleOf(After(ops), p))
  {
    var n := |ops| - 1;
    GrantedOrThere(ops, p);
    if GrantsPath(Grants(ops)(n), p) {
      k := n;
    } else {
      k := RowIsTheLastGrant(ops[..n], p);
      forall j: nat | j < n ensures Grants(ops[..n])(j) == Grants(ops)(j) {
        GrantsOfPrefix(ops, n, j);
      }
      LastGrantStays(Grants(ops[..n]), Grants(ops), n, k, p);
    }
  }

  /** A handle that was given out at `i` removes a lease other than its own if and only if its run
      was later given another lease on the same path under the same fence, which the table holds. */
  lemma WrongReleaseIff(ops: seq<Op>, i: nat, lease: FileLease)
    requires Grants(ops)(i) == Some(lease)
    ensures ReleaseOutcome(After(ops), lease).1 && !Holds(After(ops), lease) <==>
        exists k: nat, g: FileLease ::
          i < k && Grants(ops)(k) == Some(g) && g != lease && Alike(g, lease) && Holds(After(ops), g)
  {
    if Matches(After(ops), lease) && !Holds(After(ops), lease) {
      var k := RowIsTheLastGrant(ops, lease.path);
      assert !(k < i) && k != i;
    }
  }

  /** Where no fence was ever given out twice, a handle removes the very lease it was issued for. */
  lemma FreshFencesMakeHandlesExact(ops: seq<Op>, lease: FileLease)
    requires lease in Issued(ops)
    requires forall a, b :: a in Issued(ops) && b in Issued(ops) && a.fence == b.fence ==> a == b
    ensures ReleaseOutcome(After(ops), lease).1 <==> Holds(After(ops), lease)
  {
    WrongRemovalIff(ops, lease);
  }

  /** Fences do come round: after a release empties the table the first fence comes round again,
      and the handle of the released lease removes the run's next lease on the path. */
  lemma OldHandleRemovesANewerLease(path: Path, run: nat)
    ensures
      var first := AcquireOutcome(map[], Some(path), run, 0, 10).1.value;
      var ops := [AcquireOp(Some(path), run, 0, 10), ReleaseOp(first), AcquireOp(Some(path), run, 5, 10)];
      first in Issued(ops) && !Holds(After(ops), first) && ReleaseOutcome(After(ops), first) == (map[], true)
  {
    var one := AcquireOp(Some(path), run, 0, 10);
    var first := AcquireOutcome(map[], Some(path), run, 0, 10).1.value;
    var ops := [one, ReleaseOp(first), AcquireOp(Some(path), run, 5, 10)];
    var none: Table := map[];
    assert Live(none, 0) == none && Live(none, 5) == none && Fences(none) == {};
    assert ops[..2] == [one, ReleaseOp(first)] && ops[..2][..1] == [one] && [one][..0] == [];
    assert first == FileLease(path, run, 1, 10);
    assert From(none, []) == none;
    assert After([one]) == none[path := RowOf(first)];
    assert After(ops[..2]) == map[];
    assert After(ops) == map[path := LeaseRow(run, 1, 15)];
    assert Issued([one]) == {first};
    assert first in Issued(ops[..2]);
  }
}
