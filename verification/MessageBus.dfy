/** The durable message bus: idempotent sends, sequences per recipient, claims under a lease
    and acknowledgements that need the token of the claim in force. */
module MessageBus {
  import opened Prelude
  import opened Ordering
  import opened Numbering
  import Text

  datatype MessageKind =
    | TaskMessage | ResultMessage | Question | ContextRequest | ContextResponse | Review
    | ErrorMessage | EventMessage | CancelMessage | Steering | Meeting

  datatype AgentMessage = AgentMessage(
    id: nat, idempotencyKey: nat, missionId: nat, from: nat, to: nat, kind: MessageKind, payload: nat,
    sequence: nat, createdAt: I64, acknowledgedAt: Option<I64>)

  /** A row of the table. The two lease columns are nullable independently of each other. */
  datatype Row = Row(message: AgentMessage, token: Option<string>, leaseExpires: Option<I64>)

  datatype BusError = ConstraintViolated | MissingAfterSend | DeliveryTokenEmpty

  datatype ClaimedMessage = ClaimedMessage(message: AgentMessage, deliveryToken: string, leaseExpires: I64)

  datatype Query = Query(recipient: nat, mission: Option<nat>, after: nat, limit: nat, token: string, now: I64,
      lease: I64)
  {
    function Expires(): I64 {
      SatAddI64(now, Max(lease, 1))
    }

    function Limit(): nat {
      Max(1, Min(limit, 1000))
    }
  }

  // ---------------------------------------------------------------- the table's statements

  const RecipientOf: Row -> nat := (r: Row) => r.message.to

  const SequenceOf: Row -> nat := (r: Row) => r.message.sequence

  const BySequence: Row -> Key := (r: Row) => (r.message.sequence as int, 0)

  /** Rows a lease may be put on: never acknowledged, and not under a lease that is still running. */
  predicate Free(row: Row, now: I64) {
    row.message.acknowledgedAt.None? && (row.token.None? || (row.leaseExpires.Some? && row.leaseExpires.value <= now))
  }

  predicate Claimable(row: Row, q: Query) {
    && row.message.to == q.recipient
    && (q.mission.Some? ==> row.message.missionId == q.mission.value)
    && row.message.sequence > q.after
    && Free(row, q.now)
  }

  predicate HeldBy(row: Row, token: string) {
    row.token == Some(token) && row.message.acknowledgedAt.None?
  }

  function ClaimableBy(q: Query): Row -> bool {
    (r: Row) => Claimable(r, q)
  }

  function Holding(token: string): Row -> bool {
    (r: Row) => HeldBy(r, token)
  }

  function Among(ids: seq<nat>): Row -> bool {
    (r: Row) => r.message.id in ids
  }

  function ReadingBack(token: string, ids: seq<nat>): Row -> bool {
    (r: Row) => HeldBy(r, token) && r.message.id in ids
  }

  function ByKey(rows: seq<Row>, key: nat): (r: Option<AgentMessage>)
    ensures r.Some? <==> exists i :: 0 <= i < |rows| && rows[i].message.idempotencyKey == key
    ensures r.Some? ==> exists i :: 0 <= i < |rows| && rows[i].message == r.value && r.value.idempotencyKey == key
  {
    if rows == [] then None
    else if rows[|rows| - 1].message.idempotencyKey == key then Some(rows[|rows| - 1].message)
    else ByKey(rows[..|rows| - 1], key)
  }

  function LeaseRow(row: Row, q: Query): Row {
    row.(token := Some(q.token), leaseExpires := Some(q.Expires()))
  }

  /** One lease update: it touches the row with this id if the row is still free. */
  function LeaseOne(rows: seq<Row>, id: nat, q: Query): (r: seq<Row>)
    ensures |r| == |rows|
  {
    seq(|rows|, i requires 0 <= i < |rows| =>
      if rows[i].message.id == id && Free(rows[i], q.now) then LeaseRow(rows[i], q) else rows[i])
  }

  predicate Acknowledgeable(row: Row, id: nat, token: string, now: I64) {
    && row.message.id == id
    && HeldBy(row, token)
    && row.leaseExpires.Some? && row.leaseExpires.value > now
  }

  function AcknowledgeRow(row: Row, now: I64): Row {
    Row(row.message.(acknowledgedAt := Some(now)), None, None)
  }

  function AcknowledgeWhere(rows: seq<Row>, id: nat, token: string, now: I64): (r: seq<Row>)
    ensures |r| == |rows|
  {
    seq(|rows|, i requires 0 <= i < |rows| =>
      if Acknowledgeable(rows[i], id, token, now) then AcknowledgeRow(rows[i], now) else rows[i])
  }

  // ---------------------------------------------------------------- what the operations amount to

  predicate Stored(row: Row, m: AgentMessage) {
    row.message.id == m.id || row.message.idempotencyKey == m.idempotencyKey
  }

  function NextFor(rows: seq<Row>, m: AgentMessage): AgentMessage {
    m.(sequence := Top(rows, RecipientOf, SequenceOf, m.to) + 1, acknowledgedAt := None)
  }

  /** The transaction of a send: ids and keys are unique columns. */
  function InsertOutcome(rows: seq<Row>, m: AgentMessage): (seq<Row>, bool) {
    if exists i :: 0 <= i < |rows| && Stored(rows[i], m) then (rows, false)
    else (rows + [Row(NextFor(rows, m), None, None)], true)
  }

  /** What a send returns. It looks the key up, inserts, and looks the key up again, each against
      the table it finds then: `first`, `second`, and `third`. */
  function SendReply(first: seq<Row>, second: seq<Row>, third: seq<Row>, m: AgentMessage):
      Result<AgentMessage, BusError>
  {
    var existing := ByKey(first, m.idempotencyKey);
    if existing.Some? then Ok(existing.value)
    else if !InsertOutcome(second, m).1 then Err(ConstraintViolated)
    else
      var stored := ByKey(third, m.idempotencyKey);
      if stored.Some? then Ok(stored.value) else Err(MissingAfterSend)
  }

  /** A send that no other connection interrupts. */
  function SendOutcome(rows: seq<Row>, m: AgentMessage): (seq<Row>, Result<AgentMessage, BusError>) {
    var after := if ByKey(rows, m.idempotencyKey).Some? then rows else InsertOutcome(rows, m).0;
    (after, SendReply(rows, rows, after, m))
  }

  /** The rows a claim picks, in sequence order. */
  function Picked(rows: seq<Row>, q: Query): seq<Row> {
    Take(q.Limit(), SortBy(Filter(rows, ClaimableBy(q)), BySequence))
  }

  function LeaseAll(rows: seq<Row>, picked: seq<Row>, q: Query): (r: seq<Row>)
    ensures |r| == |rows|
  {
    seq(|rows|, i requires 0 <= i < |rows| => if rows[i] in picked then LeaseRow(rows[i], q) else rows[i])
  }

  function Deliveries(picked: seq<Row>, q: Query): (r: seq<ClaimedMessage>)
    ensures |r| == |picked|
  {
    seq(|picked|, i requires 0 <= i < |picked| => ClaimedMessage(picked[i].message, q.token, q.Expires()))
  }

  function ClaimOutcome(rows: seq<Row>, q: Query): (seq<Row>, Result<seq<ClaimedMessage>, BusError>) {
    if Text.Blank(q.token) then (rows, Err(DeliveryTokenEmpty))
    else (LeaseAll(rows, Picked(rows, q), q), Ok(Deliveries(Picked(rows, q), q)))
  }

  function AcknowledgeOutcome(rows: seq<Row>, id: nat, token: string, now: I64): (r: (seq<Row>, bool))
    ensures |r.0| == |rows|
  {
    (AcknowledgeWhere(rows, id, token, now),
     exists i :: 0 <= i < |rows| && Acknowledgeable(rows[i], id, token, now))
  }

  // ---------------------------------------------------------------- the invariant

  ghost predicate RowInOrder(row: Row) {
    && (row.token.Some? <==> row.leaseExpires.Some?)
    && (row.message.acknowledgedAt.Some? ==> row.token.None?)
  }

  ghost predicate WellFormed(rows: seq<Row>) {
    && (forall i, j :: 0 <= i < j < |rows| ==> rows[i].message.id != rows[j].message.id)
    && (forall i, j :: 0 <= i < j < |rows| ==> rows[i].message.idempotencyKey != rows[j].message.idempotencyKey)
    && (forall i :: 0 <= i < |rows| ==> RowInOrder(rows[i]))
    && Numbered(rows, RecipientOf, SequenceOf)
  }

  /** Everything of a message that never changes once it is stored. */
  ghost predicate SameEnvelope(a: Row, b: Row) {
    a.message.(acknowledgedAt := None) == b.message.(acknowledgedAt := None)
  }

  lemma EnvelopeKeepsOrder(rows: seq<Row>, now: seq<Row>)
    requires WellFormed(rows) && |now| == |rows|
    requires forall i :: 0 <= i < |rows| ==> SameEnvelope(rows[i], now[i]) && RowInOrder(now[i])
    ensures WellFormed(now)
  {
    assert forall i :: 0 <= i < |rows| ==> rows[i].message.id == now[i].message.id;
    assert forall i :: 0 <= i < |rows| ==> rows[i].message.idempotencyKey == now[i].message.idempotencyKey;
    RewriteNumbered(rows, now, RecipientOf, SequenceOf);
  }

  lemma InsertKeepsOrder(rows: seq<Row>, m: AgentMessage)
    requires WellFormed(rows)
    ensures WellFormed(InsertOutcome(rows, m).0)
  {
    if InsertOutcome(rows, m).1 {
      assert forall i :: 0 <= i < |rows| ==> !Stored(rows[i], m);
      StoreKeepsOrder(rows, NextFor(rows, m));
    }
  }

  lemma StoreKeepsOrder(rows: seq<Row>, m: AgentMessage)
    requires WellFormed(rows)
    requires
      forall i :: 0 <= i < |rows| ==> rows[i].message.id != m.id && rows[i].message.idempotencyKey != m.idempotencyKey
    requires m.acknowledgedAt.None? && m.sequence == Top(rows, RecipientOf, SequenceOf, m.to) + 1
    ensures WellFormed(rows + [Row(m, None, None)])
  {
    AppendNumbered(rows, RecipientOf, SequenceOf, Row(m, None, None));
  }

  lemma ClaimKeepsOrder(rows: seq<Row>, q: Query)
    requires WellFormed(rows)
    ensures WellFormed(ClaimOutcome(rows, q).0)
  {
    if !Text.Blank(q.token) {
      var picked := Picked(rows, q);
      PickedAreClaimable(rows, q);
      EnvelopeKeepsOrder(rows, LeaseAll(rows, picked, q));
    }
  }

  lemma AcknowledgeKeepsOrder(rows: seq<Row>, id: nat, token: string, now: I64)
    requires WellFormed(rows)
    ensures WellFormed(AcknowledgeOutcome(rows, id, token, now).0)
  {
    EnvelopeKeepsOrder(rows, AcknowledgeOutcome(rows, id, token, now).0);
  }

  // ---------------------------------------------------------------- what a claim picks

  lemma PickedAreClaimable(rows: seq<Row>, q: Query)
    ensures forall r :: r in Picked(rows, q) ==> r in rows && Claimable(r, q)
  {
    var able := Filter(rows, ClaimableBy(q));
    RearrangementMembers(SortBy(able, BySequence), able);
    forall r | r in Picked(rows, q) ensures r in rows && Claimable(r, q) {
      assert r in SortBy(able, BySequence);
      assert r in able && ClaimableBy(q)(r);
    }
  }

  ghost predicate AscendingBySequence(s: seq<Row>) {
    forall i, j :: 0 <= i < j < |s| ==> s[i].message.sequence < s[j].message.sequence
  }

  lemma StrictMeansAscending(s: seq<Row>)
    requires StrictlySorted(s, BySequence)
    ensures AscendingBySequence(s)
  {
  }

  /** Selecting messages of one recipient and sorting them leaves no ties. */
  lemma OneRecipientAscends(rows: seq<Row>, p: Row -> bool, recipient: nat)
    requires WellFormed(rows)
    requires forall r :: r in rows && p(r) ==> r.message.to == recipient
    ensures AscendingBySequence(SortBy(Filter(rows, p), BySequence))
  {
    var chosen := Filter(rows, p);
    assert forall i, j :: 0 <= i < j < |rows| ==> rows[i] != rows[j];
    FilterStaysDistinct(rows, p);
    forall x, y | x in chosen && y in chosen && BySequence(x) == BySequence(y) ensures x == y {
      if x != y { NumbersTellApart(rows, RecipientOf, SequenceOf, x, y); }
    }
    DistinctSortStrictly(chosen, BySequence);
    StrictMeansAscending(SortBy(chosen, BySequence));
  }

  /** Two ascending lists with the same members are the same list. */
  lemma {:induction false} SameMembersSameList(a: seq<Row>, b: seq<Row>)
    requires AscendingBySequence(a) && AscendingBySequence(b)
    requires forall x :: x in a <==> x in b
    ensures a == b
  {
    assert b != [] ==> b[0] in a;
    if a != [] {
      assert a[0] in b && b[0] in a;
      assert a[0] == b[0];
      assert a == [a[0]] + a[1..] && b == [b[0]] + b[1..];
      forall x ensures x in a[1..] <==> x in b[1..] {
        assert x in a[1..] ==> x in b && x != a[0];
        assert x in b[1..] ==> x in a && x != b[0];
      }
      SameMembersSameList(a[1..], b[1..]);
    }
  }

  lemma TakeIsAPrefix(sorted: seq<Row>, n: nat)
    requires AscendingBySequence(sorted)
    ensures AscendingBySequence(Take(n, sorted)) && |Take(n, sorted)| <= n
    ensures forall r :: r in Take(n, sorted) ==> r in sorted
    ensures forall r, p ::
        r in sorted && r !in Take(n, sorted) && p in Take(n, sorted) ==> p.message.sequence < r.message.sequence
    ensures (exists r :: r in sorted && r !in Take(n, sorted)) ==> |Take(n, sorted)| == n
  {
  }

  /** A claim returns the first claimable messages in sequence order: each was claimable, they
      ascend, and whatever claimable message is left behind comes later than all of them and
      was left only because the limit was reached. */
  lemma ClaimTakesTheFirst(rows: seq<Row>, q: Query)
    requires WellFormed(rows)
    ensures forall r :: r in Picked(rows, q) ==> r in rows && Claimable(r, q)
    ensures AscendingBySequence(Picked(rows, q))
    ensures |Picked(rows, q)| <= q.Limit()
    ensures forall r, p ::
        r in rows && Claimable(r, q) && r !in Picked(rows, q) && p in Picked(rows, q) ==>
          p.message.sequence < r.message.sequence
    ensures (exists r :: r in rows && Claimable(r, q) && r !in Picked(rows, q)) ==> |Picked(rows, q)| == q.Limit()
  {
    var able := Filter(rows, ClaimableBy(q));
    OneRecipientAscends(rows, ClaimableBy(q), q.recipient);
    RearrangementMembers(SortBy(able, BySequence), able);
    TakeIsAPrefix(SortBy(able, BySequence), q.Limit());
  }

  // ---------------------------------------------------------------- the bus

  /** The loop over the picked ids puts the lease on exactly the picked rows. */
  lemma LeaseOneMore(rows: seq<Row>, picked: seq<Row>, k: nat, q: Query)
    requires WellFormed(rows) && k < |picked|
    requires picked[k] in rows && Claimable(picked[k], q)
    requires picked[k] !in picked[..k]
    ensures LeaseOne(LeaseAll(rows, picked[..k], q), picked[k].message.id, q) == LeaseAll(rows, picked[..k + 1], q)
  {
  }

  function LeasedPick(picked: seq<Row>, q: Query): (r: seq<Row>)
    ensures |r| == |picked|
  {
    seq(|picked|, i requires 0 <= i < |picked| => LeaseRow(picked[i], q))
  }

  function IdsOf(picked: seq<Row>): (r: seq<nat>)
    ensures |r| == |picked|
  {
    seq(|picked|, i requires 0 <= i < |picked| => picked[i].message.id)
  }

  lemma {:induction false} FilterTwice(rows: seq<Row>, token: string, ids: seq<nat>)
    ensures Filter(Filter(rows, Holding(token)), Among(ids)) == Filter(rows, ReadingBack(token, ids))
  {
    if rows != [] {
      FilterTwice(rows[1..], token, ids);
      var rest := Filter(rows[1..], Holding(token));
      assert ([rows[0]] + rest)[1..] == rest;
    }
  }

  /** After a claim, the rows under its token among the picked ids are the picked rows, leased. */
  lemma ReadBackMembers(rows: seq<Row>, picked: seq<Row>, q: Query, row: Row)
    requires WellFormed(rows)
    requires forall r :: r in picked ==> r in rows && Claimable(r, q)
    ensures
      row in LeaseAll(rows, picked, q) && ReadingBack(q.token, IdsOf(picked))(row) <==> row in LeasedPick(picked, q)
  {
    var after := LeaseAll(rows, picked, q);
    if row in after && ReadingBack(q.token, IdsOf(picked))(row) {
      var i :| 0 <= i < |rows| && after[i] == row;
      var k :| 0 <= k < |picked| && IdsOf(picked)[k] == row.message.id;
      assert picked[k] in picked && picked[k].message.id == rows[i].message.id;
      var at :| 0 <= at < |rows| && rows[at] == picked[k];
      assert at == i;
      assert LeasedPick(picked, q)[k] == row;
    }
    if row in LeasedPick(picked, q) {
      var k :| 0 <= k < |picked| && LeasedPick(picked, q)[k] == row;
      assert picked[k] in picked && IdsOf(picked)[k] == row.message.id;
      var i :| 0 <= i < |rows| && rows[i] == picked[k];
      assert after[i] == row;
    }
  }

  /** The rows read back belong to the recipient of the claim. */
  lemma ReadBackIsTheRecipients(rows: seq<Row>, picked: seq<Row>, q: Query, row: Row)
    requires WellFormed(rows) && WellFormed(LeaseAll(rows, picked, q))
    requires forall r :: r in picked ==> r in rows && Claimable(r, q)
    requires row in LeaseAll(rows, picked, q) && ReadingBack(q.token, IdsOf(picked))(row)
    ensures row.message.to == q.recipient
  {
    ReadBackMembers(rows, picked, q, row);
    var k :| 0 <= k < |picked| && LeasedPick(picked, q)[k] == row;
    assert picked[k] in picked;
  }

  /** The second query of a claim, with its filter on the picked ids, reads back the pick. */
  lemma ReadBackIsThePick(rows: seq<Row>, picked: seq<Row>, q: Query)
    requires WellFormed(rows) && WellFormed(LeaseAll(rows, picked, q))
    requires AscendingBySequence(picked)
    requires forall r :: r in picked ==> r in rows && Claimable(r, q)
    ensures Filter(SortBy(Filter(LeaseAll(rows, picked, q), Holding(q.token)), BySequence), Among(IdsOf(picked)))
      == LeasedPick(picked, q)
  {
    var after, ids := LeaseAll(rows, picked, q), IdsOf(picked);
    var back := SortBy(Filter(after, ReadingBack(q.token, ids)), BySequence);
    FilterOfSort(Filter(after, Holding(q.token)), BySequence, Among(ids));
    FilterTwice(after, q.token, ids);
    RearrangementMembers(back, Filter(after, ReadingBack(q.token, ids)));
    forall row ensures row in back <==> row in LeasedPick(picked, q) {
      ReadBackMembers(rows, picked, q, row);
    }
    forall row | row in after && ReadingBack(q.token, ids)(row) ensures row.message.to == q.recipient {
      ReadBackIsTheRecipients(rows, picked, q, row);
    }
    OneRecipientAscends(after, ReadingBack(q.token, ids), q.recipient);
    assert forall k :: 0 <= k < |picked| ==> LeasedPick(picked, q)[k].message == picked[k].message;
    SameMembersSameList(back, LeasedPick(picked, q));
  }

  /** What a claim hands out after its updates is what it picked. */
  lemma HandsOutThePick(rows: seq<Row>, q: Query)
    requires WellFormed(rows) && !Text.Blank(q.token)
    ensures
      var held := SortBy(Filter(LeaseAll(rows, Picked(rows, q), q), Holding(q.token)), BySequence);
      Deliveries(Filter(held, Among(IdsOf(Picked(rows, q)))), q) == Deliveries(Picked(rows, q), q)
  {
    var picked := Picked(rows, q);
    ClaimTakesTheFirst(rows, q);
    ClaimKeepsOrder(rows, q);
    ReadBackIsThePick(rows, picked, q);
    assert Deliveries(LeasedPick(picked, q), q) == Deliveries(picked, q);
  }

  lemma DeliverOneMore(held: seq<Row>, k: nat, ids: seq<nat>, q: Query)
    requires k < |held|
    ensures Deliveries(Filter(held[..k + 1], Among(ids)), q)
      == Deliveries(Filter(held[..k], Among(ids)), q)
         + if held[k].message.id in ids then [ClaimedMessage(held[k].message, q.token, q.Expires())] else []
  {
    assert held[..k + 1] == held[..k] + [held[k]];
    FilterConcat(held[..k], [held[k]], Among(ids));
    assert Filter([held[k]], Among(ids)) == if held[k].message.id in ids then [held[k]] else [];
  }

  class AgentMessageBus {
    var rows: seq<Row>

    ghost predicate Valid()
      reads this
    {
      WellFormed(rows)
    }

    constructor ()
      ensures Valid() && rows == []
    {
      rows := [];
    }

    method Insert(m: AgentMessage) returns (inserted: bool)
      requires Valid()
      modifies this
      ensures Valid()
      ensures (rows, inserted) == InsertOutcome(old(rows), m)
    {
      InsertKeepsOrder(rows, m);
      var next := NextFor(rows, m);
      if exists i :: 0 <= i < |rows| && Stored(rows[i], m) {
        return false;
      }
      rows := rows + [Row(next, None, None)];
      inserted := true;
    }

    method Send(m: AgentMessage) returns (r: Result<AgentMessage, BusError>)
      requires Valid()
      modifies this
      ensures Valid()
      ensures (rows, r) == SendOutcome(old(rows), m)
    {
      var existing := ByKey(rows, m.idempotencyKey);
      if existing.Some? {
        return Ok(existing.value);
      }
      var inserted := Insert(m);
      if !inserted {
        return Err(ConstraintViolated);
      }
      var stored := ByKey(rows, m.idempotencyKey);
      r := if stored.Some? then Ok(stored.value) else Err(MissingAfterSend);
    }

    /** The updates of a claim: one statement for each picked id. */
    method LeaseEach(picked: seq<Row>, q: Query)
      requires Valid()
      requires AscendingBySequence(picked)
      requires forall r :: r in picked ==> r in rows && Claimable(r, q)
      modifies this
      ensures rows == LeaseAll(old(rows), picked, q)
    {
      ghost var was := rows;
      for k := 0 to |picked|
        invariant rows == LeaseAll(was, picked[..k], q)
      {
        LeaseOneMore(was, picked, k, q);
        rows := LeaseOne(rows, picked[k].message.id, q);
      }
      assert picked[..|picked|] == picked;
    }

    /** What a claim hands out: the rows read back under its token, kept if their id was picked. */
    method Collect(held: seq<Row>, ids: seq<nat>, q: Query) returns (claimed: seq<ClaimedMessage>)
      ensures claimed == Deliveries(Filter(held, Among(ids)), q)
    {
      claimed := [];
      for k := 0 to |held|
        invariant claimed == Deliveries(Filter(held[..k], Among(ids)), q)
      {
        DeliverOneMore(held, k, ids, q);
        if held[k].message.id in ids {
          claimed := claimed + [ClaimedMessage(held[k].message, q.token, q.Expires())];
        }
      }
      assert held[..|held|] == held;
    }

    method Claim(q: Query) returns (r: Result<seq<ClaimedMessage>, BusError>)
      requires Valid()
      modifies this
      ensures Valid()
      ensures (rows, r) == ClaimOutcome(old(rows), q)
    {
      if Text.Blank(q.token) {
        return Err(DeliveryTokenEmpty);
      }
      var picked := Take(q.Limit(), SortBy(Filter(rows, ClaimableBy(q)), BySequence));
      ClaimTakesTheFirst(rows, q);
      ClaimKeepsOrder(rows, q);
      HandsOutThePick(rows, q);
      LeaseEach(picked, q);
      var claimed := Collect(SortBy(Filter(rows, Holding(q.token)), BySequence), IdsOf(picked), q);
      r := Ok(claimed);
    }

    method Acknowledge(id: nat, token: string, now: I64) returns (done: bool)
      requires Valid()
      modifies this
      ensures Valid()
      ensures (rows, done) == AcknowledgeOutcome(old(rows), id, token, now)
    {
      AcknowledgeKeepsOrder(rows, id, token, now);
      done := exists i :: 0 <= i < |rows| && Acknowledgeable(rows[i], id, token, now);
      rows := AcknowledgeWhere(rows, id, token, now);
    }
  }

  // ---------------------------------------------------------------- histories of the bus

  datatype Op = InsertOp(m: AgentMessage) | ClaimOp(q: Query) | AcknowledgeOp(id: nat, token: string, now: I64)

  function Step(rows: seq<Row>, op: Op): seq<Row> {
    match op
    case InsertOp(m) => InsertOutcome(rows, m).0
    case ClaimOp(q) => ClaimOutcome(rows, q).0
    case AcknowledgeOp(id, token, now) => AcknowledgeOutcome(rows, id, token, now).0
  }

  function From(rows: seq<Row>, ops: seq<Op>): seq<Row> {
    if ops == [] then rows else Step(From(rows, ops[..|ops| - 1]), ops[|ops| - 1])
  }

  function After(ops: seq<Op>): seq<Row> {
    From([], ops)
  }

  lemma StepKeepsOrder(rows: seq<Row>, op: Op)
    requires WellFormed(rows)
    ensures WellFormed(Step(rows, op))
  {
    match op {
      case InsertOp(m) => InsertKeepsOrder(rows, m);
      case ClaimOp(q) => ClaimKeepsOrder(rows, q);
      case AcknowledgeOp(id, token, now) => AcknowledgeKeepsOrder(rows, id, token, now);
    }
  }

  lemma {:induction false} AlwaysInOrder(ops: seq<Op>)
    ensures WellFormed(After(ops))
  {
    if ops != [] {
      AlwaysInOrder(ops[..|ops| - 1]);
      StepKeepsOrder(After(ops[..|ops| - 1]), ops[|ops| - 1]);
    }
  }

  /** The messages of one recipient, in the order they were sent, are numbered 1, 2, 3 and so on,
      whatever claims and acknowledgements happened in between. */
  lemma SequencesRunFromOne(ops: seq<Op>, recipient: nat, k: nat)
    requires k < |Filter(After(ops), InLane(RecipientOf, recipient))|
    ensures Filter(After(ops), InLane(RecipientOf, recipient))[k].message.sequence == k + 1
  {
    AlwaysInOrder(ops);
    LaneRunsFromOne(After(ops), RecipientOf, SequenceOf, recipient, k);
  }

  /** A step appends at most one message and leaves what identifies the others as it was;
      an acknowledged row is not touched at all. */
  lemma StepOnlyAppends(rows: seq<Row>, op: Op)
    requires WellFormed(rows)
    ensures |rows| <= |Step(rows, op)| <= |rows| + 1
    ensures forall i :: 0 <= i < |rows| ==> SameEnvelope(rows[i], Step(rows, op)[i])
    ensures forall i :: 0 <= i < |rows| && rows[i].message.acknowledgedAt.Some? ==> Step(rows, op)[i] == rows[i]
  {
    match op {
      case InsertOp(m) =>
      case ClaimOp(q) => PickedAreClaimable(rows, q);
      case AcknowledgeOp(id, token, now) =>
    }
  }

  ghost predicate SameOnceAcknowledged(a: Row, b: Row) {
    SameEnvelope(a, b) && (a.message.acknowledgedAt.Some? ==> b == a)
  }

  lemma StepKeepsRow(first: Row, rows: seq<Row>, op: Op, i: nat)
    requires WellFormed(rows) && i < |rows| && SameOnceAcknowledged(first, rows[i])
    ensures i < |Step(rows, op)| && SameOnceAcknowledged(first, Step(rows, op)[i])
  {
    StepOnlyAppends(rows, op);
  }

  /** Stored messages stay where they are, and an acknowledged one is frozen for good. */
  lemma {:induction false} StoredForGood(rows: seq<Row>, more: seq<Op>, i: nat)
    requires WellFormed(rows) && i < |rows|
    ensures WellFormed(From(rows, more))
    ensures i < |From(rows, more)| && SameOnceAcknowledged(rows[i], From(rows, more)[i])
  {
    if more != [] {
      var shorter := more[..|more| - 1];
      StoredForGood(rows, shorter, i);
      StepKeepsOrder(From(rows, shorter), more[|more| - 1]);
      StepKeepsRow(rows[i], From(rows, shorter), more[|more| - 1], i);
    }
  }

  lemma {:induction false} ByKeyFinds(rows: seq<Row>, i: nat)
    requires WellFormed(rows) && i < |rows|
    ensures ByKey(rows, rows[i].message.idempotencyKey) == Some(rows[i].message)
  {
  }

  /** Sending again under a key already used, at any later time, stores nothing and returns the
      message of the first send. */
  lemma ResendReturnsTheFirst(ops: seq<Op>, more: seq<Op>, m: AgentMessage, again: AgentMessage)
    requires SendOutcome(After(ops), m).1.Ok? && again.idempotencyKey == m.idempotencyKey
    ensures
      var rows := From(SendOutcome(After(ops), m).0, more);
      var r := SendOutcome(rows, again);
      && r.0 == rows
      && r.1.Ok?
      && r.1.value.(acknowledgedAt := None) == SendOutcome(After(ops), m).1.value.(acknowledgedAt := None)
  {
    AlwaysInOrder(ops);
    InsertKeepsOrder(After(ops), m);
    KeyStays(SendOutcome(After(ops), m).0, more, m.idempotencyKey);
  }

  /** A key that is in the table stays there, with the message it was stored with. */
  lemma KeyStays(rows: seq<Row>, more: seq<Op>, key: nat)
    requires WellFormed(rows) && ByKey(rows, key).Some?
    ensures ByKey(From(rows, more), key).Some?
    ensures ByKey(From(rows, more), key).value.(acknowledgedAt := None)
        == ByKey(rows, key).value.(acknowledgedAt := None)
  {
    var i :| 0 <= i < |rows| && rows[i].message == ByKey(rows, key).value;
    StoredForGood(rows, more, i);
    ByKeyFinds(From(rows, more), i);
  }

  // ---------------------------------------------------------------- sends on several connections

  predicate InUse(rows: seq<Row>, m: AgentMessage) {
    exists i :: 0 <= i < |rows| && Stored(rows[i], m)
  }

  /** One of these steps stored the id or the key of the message. */
  ghost predicate StoredBetween(rows: seq<Row>, more: seq<Op>, m: AgentMessage) {
    exists k :: 0 <= k < |more| && Stores(From(rows, more[..k]), more[k], m)
  }

  ghost predicate Stores(rows: seq<Row>, op: Op, m: AgentMessage) {
    op.InsertOp? && InsertOutcome(rows, op.m).1 && (op.m.id == m.id || op.m.idempotencyKey == m.idempotencyKey)
  }

  lemma StepUses(rows: seq<Row>, op: Op, m: AgentMessage)
    requires WellFormed(rows)
    ensures InUse(Step(rows, op), m) <==> InUse(rows, m) || Stores(rows, op, m)
  {
    StepOnlyAppends(rows, op);
    var after := Step(rows, op);
    assert forall i :: 0 <= i < |rows| ==>
        SameEnvelope(rows[i], after[i]) && (Stored(rows[i], m) <==> Stored(after[i], m));
    if Stores(rows, op, m) {
      assert Stored(after[|rows|], m);
    }
  }

  lemma StoredBetweenGrows(rows: seq<Row>, more: seq<Op>, op: Op, m: AgentMessage)
    ensures StoredBetween(rows, more + [op], m) <==> StoredBetween(rows, more, m) || Stores(From(rows, more), op, m)
  {
    var all := more + [op];
    assert all[..|more|] == more;
    assert forall k :: 0 <= k < |more| ==> all[k] == more[k] && all[..k] == more[..k];
    assert forall k :: 0 <= k < |more| ==>
        (Stores(From(rows, all[..k]), all[k], m) <==> Stores(From(rows, more[..k]), more[k], m));
  }

  lemma {:induction false} InUseIff(rows: seq<Row>, more: seq<Op>, m: AgentMessage)
    requires WellFormed(rows)
    ensures WellFormed(From(rows, more))
    ensures InUse(From(rows, more), m) <==> InUse(rows, m) || StoredBetween(rows, more, m)
  {
    if more != [] {
      var front, op := more[..|more| - 1], more[|more| - 1];
      assert more == front + [op];
      InUseIff(rows, front, m);
      StoredBetweenGrows(rows, front, op, m);
      StepKeepsOrder(From(rows, front), op);
      StepUses(From(rows, front), op, m);
    }
  }

  /** What an inserted message reads back as, however many steps later. */
  lemma InsertedReadsBack(rows: seq<Row>, later: seq<Op>, m: AgentMessage)
    requires WellFormed(rows) && !InUse(rows, m)
    ensures
      var back := ByKey(From(InsertOutcome(rows, m).0, later), m.idempotencyKey);
      back.Some? && back.value.(acknowledgedAt := None) == NextFor(rows, m)
  {
    InsertKeepsOrder(rows, m);
    var stored := InsertOutcome(rows, m).0;
    assert stored[|rows|].message == NextFor(rows, m);
    ByKeyFinds(stored, |rows|);
    KeyStays(stored, later, m.idempotencyKey);
  }

  /** Other connections act between the three statements of a send whose key was new when it was
      looked up. The send fails exactly when the id was taken already or when another send stored
      the id or the key in between; otherwise it returns what it stored. */
  lemma ConcurrentSendFailsIff(ops: seq<Op>, between: seq<Op>, later: seq<Op>, m: AgentMessage)
    requires ByKey(After(ops), m.idempotencyKey).None?
    ensures
      var second := From(After(ops), between);
      var reply := SendReply(After(ops), second, From(InsertOutcome(second, m).0, later), m);
      && (reply.Err? <==> InUse(After(ops), m) || StoredBetween(After(ops), between, m))
      && (reply.Err? ==> reply.error == ConstraintViolated)
      && (reply.Ok? ==> reply.value.(acknowledgedAt := None) == NextFor(second, m))
  {
    AlwaysInOrder(ops);
    RacedSend(After(ops), between, later, m);
  }

  lemma RacedSend(first: seq<Row>, between: seq<Op>, later: seq<Op>, m: AgentMessage)
    requires WellFormed(first) && ByKey(first, m.idempotencyKey).None?
    ensures
      var second := From(first, between);
      var reply := SendReply(first, second, From(InsertOutcome(second, m).0, later), m);
      && (reply.Err? <==> InUse(first, m) || StoredBetween(first, between, m))
      && (reply.Err? ==> reply.error == ConstraintViolated)
      && (reply.Ok? ==> reply.value.(acknowledgedAt := None) == NextFor(second, m))
  {
    InUseIff(first, between, m);
    var second := From(first, between);
    if !InUse(second, m) {
      InsertedReadsBack(second, later, m);
    }
  }

  /** Two sends of one new key at once: the later one fails, although the message is there. */
  lemma SecondSendOfAKeyFails(rows: seq<Row>, m: AgentMessage)
    requires WellFormed(rows) && !InUse(rows, m)
    ensures
      var second := InsertOutcome(rows, m).0;
      && ByKey(second, m.idempotencyKey).Some?
      && SendReply(rows, second, second, m) == Err(ConstraintViolated)
  {
    InsertedReadsBack(rows, [], m);
    assert Stored(InsertOutcome(rows, m).0[|rows|], m);
  }

  // ---------------------------------------------------------------- the three states of a message

  predicate Acknowledged(row: Row) {
    row.message.acknowledgedAt.Some?
  }

  predicate Held(row: Row, now: I64) {
    !Acknowledged(row) && row.token.Some? && row.leaseExpires.Some? && row.leaseExpires.value > now
  }

  /** At any time a message is in exactly one state: acknowledged, held under a running lease,
      or free. Only a free one can be handed out, only a held one can be acknowledged. */
  lemma OneStateAtATime(ops: seq<Op>, row: Row, now: I64, q: Query, id: nat, token: string)
    requires row in After(ops) && q.now == now
    ensures Acknowledged(row) ==> !Held(row, now) && !Free(row, now)
    ensures !Acknowledged(row) ==> (Held(row, now) <==> !Free(row, now))
    ensures row in Picked(After(ops), q) ==> Free(row, now)
    ensures Acknowledgeable(row, id, token, now) <==> Held(row, now) && row.message.id == id && row.token == Some(token)
  {
    AlwaysInOrder(ops);
    PickedAreClaimable(After(ops), q);
    var i :| 0 <= i < |After(ops)| && After(ops)[i] == row;
    assert RowInOrder(After(ops)[i]);
  }

  predicate Hands(rows: seq<Row>, op: Op, id: nat) {
    op.ClaimOp? && !Text.Blank(op.q.token) && exists r :: r in Picked(rows, op.q) && r.message.id == id
  }

  /** The last claim that handed a message out. */
  function LatestClaim(ops: seq<Op>, id: nat): Option<Query> {
    if ops == [] then None
    else if Hands(After(ops[..|ops| - 1]), ops[|ops| - 1], id) then Some(ops[|ops| - 1].q)
    else LatestClaim(ops[..|ops| - 1], id)
  }

  /** The lease columns of a row record a claim. */
  ghost predicate Records(row: Row, claim: Option<Query>) {
    && row.token == (if claim.Some? then Some(claim.value.token) else None)
    && row.leaseExpires == (if claim.Some? then Some(claim.value.Expires()) else None)
  }

  lemma {:induction false} ClaimedMessagesExist(ops: seq<Op>, id: nat)
    requires LatestClaim(ops, id).Some?
    ensures exists i :: 0 <= i < |After(ops)| && After(ops)[i].message.id == id
  {
    var before, op := ops[..|ops| - 1], ops[|ops| - 1];
    AlwaysInOrder(before);
    StepOnlyAppends(After(before), op);
    if Hands(After(before), op, id) {
      PickedAreClaimable(After(before), op.q);
      var r :| r in Picked(After(before), op.q) && r.message.id == id;
      var i :| 0 <= i < |After(before)| && After(before)[i] == r;
      assert SameEnvelope(After(before)[i], After(ops)[i]);
    } else {
      ClaimedMessagesExist(before, id);
      var i :| 0 <= i < |After(before)| && After(before)[i].message.id == id;
      assert SameEnvelope(After(before)[i], After(ops)[i]);
    }
  }

  /** What a step does to the lease of a row it leaves unacknowledged. */
  lemma StepRecordsTheClaim(rows: seq<Row>, op: Op, i: nat)
    requires WellFormed(rows) && i < |rows|
    ensures |rows| <= |Step(rows, op)|
    ensures !Acknowledged(Step(rows, op)[i]) ==> !Acknowledged(rows[i])
    ensures !Acknowledged(Step(rows, op)[i]) ==>
        if Hands(rows, op, rows[i].message.id) then Records(Step(rows, op)[i], Some(op.q))
        else Step(rows, op)[i] == rows[i]
  {
    StepOnlyAppends(rows, op);
    if op.ClaimOp? && !Text.Blank(op.q.token) {
      PickedAreClaimable(rows, op.q);
      if Hands(rows, op, rows[i].message.id) {
        var r :| r in Picked(rows, op.q) && r.message.id == rows[i].message.id;
        var at :| 0 <= at < |rows| && rows[at] == r;
        assert at == i;
      }
    }
  }

  /** The lease of every unacknowledged message is the one its latest claim put on it. */
  lemma {:induction false} LeaseIsTheLatestClaim(ops: seq<Op>, i: nat)
    requires i < |After(ops)| && !Acknowledged(After(ops)[i])
    ensures Records(After(ops)[i], LatestClaim(ops, After(ops)[i].message.id))
  {
    var before, op := ops[..|ops| - 1], ops[|ops| - 1];
    AlwaysInOrder(before);
    StepOnlyAppends(After(before), op);
    if i < |After(before)| {
      StepRecordsTheClaim(After(before), op, i);
      LeaseIsTheLatestClaim(before, i);
    } else {
      NewMessagesAreUnclaimed(before, op);
    }
  }

  lemma NewMessagesAreUnclaimed(before: seq<Op>, op: Op)
    requires |After(before)| < |Step(After(before), op)|
    ensures
      var row := Step(After(before), op)[|After(before)|];
      Records(row, None) && LatestClaim(before, row.message.id).None? && !Hands(After(before), op, row.message.id)
  {
    var id := Step(After(before), op)[|After(before)|].message.id;
    if LatestClaim(before, id).Some? {
      ClaimedMessagesExist(before, id);
    }
  }

  /** An acknowledgement succeeds exactly when the message is there, was never acknowledged, and
      its latest claim carried this token and a lease that is still running. */
  lemma AcknowledgeNeedsTheLatestClaim(ops: seq<Op>, i: nat, token: string, now: I64)
    requires i < |After(ops)|
    ensures
      var id := After(ops)[i].message.id;
      var claim := LatestClaim(ops, id);
      AcknowledgeOutcome(After(ops), id, token, now).1 <==>
        !Acknowledged(After(ops)[i]) && claim.Some? && claim.value.token == token && claim.value.Expires() > now
  {
    var rows, id := After(ops), After(ops)[i].message.id;
    AlwaysInOrder(ops);
    assert forall j :: 0 <= j < |rows| && rows[j].message.id == id ==> j == i;
    if !Acknowledged(rows[i]) {
      LeaseIsTheLatestClaim(ops, i);
    }
    assert AcknowledgeOutcome(rows, id, token, now).1 <==> Acknowledgeable(rows[i], id, token, now);
  }

  /** The step grants an acknowledgement of message `id`. */
  predicate Acknowledging(rows: seq<Row>, op: Op, id: nat) {
    op.AcknowledgeOp? && op.id == id && AcknowledgeOutcome(rows, id, op.token, op.now).1
  }

  /** How often an acknowledgement of a message succeeded. */
  function Acknowledgements(ops: seq<Op>, id: nat): nat {
    if ops == [] then 0
    else
      var before, op := ops[..|ops| - 1], ops[|ops| - 1];
      Acknowledgements(before, id) + if Acknowledging(After(before), op, id) then 1 else 0
  }

  ghost predicate IsAcknowledged(rows: seq<Row>, id: nat) {
    exists i :: 0 <= i < |rows| && rows[i].message.id == id && Acknowledged(rows[i])
  }

  lemma AcknowledgingMarks(rows: seq<Row>, op: Op, id: nat)
    requires WellFormed(rows) && Acknowledging(rows, op, id)
    ensures IsAcknowledged(Step(rows, op), id) && !IsAcknowledged(rows, id)
  {
    var i :| 0 <= i < |rows| && Acknowledgeable(rows[i], id, op.token, op.now);
    assert Acknowledged(Step(rows, op)[i]);
    assert forall j :: 0 <= j < |rows| && rows[j].message.id == id ==> j == i;
  }

  lemma StepAcknowledges(rows: seq<Row>, op: Op, id: nat)
    requires WellFormed(rows)
    ensures IsAcknowledged(Step(rows, op), id) <==> IsAcknowledged(rows, id) || Acknowledging(rows, op, id)
    ensures Acknowledging(rows, op, id) ==> !IsAcknowledged(rows, id)
  {
    StepOnlyAppends(rows, op);
    if IsAcknowledged(rows, id) {
      var i :| 0 <= i < |rows| && rows[i].message.id == id && Acknowledged(rows[i]);
      assert Step(rows, op)[i] == rows[i];
    }
    if Acknowledging(rows, op, id) {
      AcknowledgingMarks(rows, op, id);
    }
    if IsAcknowledged(Step(rows, op), id) {
      var i :| 0 <= i < |Step(rows, op)| && Step(rows, op)[i].message.id == id && Acknowledged(Step(rows, op)[i]);
      assert i < |rows| ==> SameEnvelope(rows[i], Step(rows, op)[i]);
    }
  }

  /** A message is acknowledged at most once, and once exactly when its row says so. */
  lemma {:induction false} AcknowledgedAtMostOnce(ops: seq<Op>, id: nat)
    ensures Acknowledgements(ops, id) == if IsAcknowledged(After(ops), id) then 1 else 0
  {
    if ops != [] {
      var before := ops[..|ops| - 1];
      AcknowledgedAtMostOnce(before, id);
      AlwaysInOrder(before);
      StepAcknowledges(After(before), ops[|ops| - 1], id);
    }
  }

  /** Nothing is lost: the lowest message a query may claim is always handed out by it. */
  lemma LowestIsHandedOut(ops: seq<Op>, q: Query, row: Row)
    requires row in After(ops) && Claimable(row, q)
    requires forall r :: r in After(ops) && Claimable(r, q) ==> row.message.sequence <= r.message.sequence
    ensures row in Picked(After(ops), q)
  {
    AlwaysInOrder(ops);
    ClaimTakesTheFirst(After(ops), q);
    var picked := Picked(After(ops), q);
    assert picked != [] ==> picked[0] in picked;
    assert row !in picked ==> |picked| == q.Limit();
  }

  // ---------------------------------------------------------------- the operations on the fields of the rows

  /** The row is one the query asks for, on its columns: recipient, mission, position, and neither
      acknowledged nor under a lease that is still running. */
  ghost predicate AskedFor(row: Row, q: Query) {
    && row.message.to == q.recipient
    && q.mission in {None, Some(row.message.missionId)}
    && row.message.sequence >= q.after + 1
    && row.message.acknowledgedAt == None
    && (row.token == None || !(row.leaseExpires.None? || q.now < row.leaseExpires.value))
  }

  ghost predicate HandedOut(out: seq<ClaimedMessage>, row: Row) {
    exists k :: 0 <= k < |out| && out[k].message == row.message
  }

  lemma PickedIsHandedOut(rows: seq<Row>, q: Query, row: Row)
    requires WellFormed(rows) && row in rows
    ensures HandedOut(Deliveries(Picked(rows, q), q), row) <==> row in Picked(rows, q)
  {
    var picked := Picked(rows, q);
    PickedAreClaimable(rows, q);
    if k :| 0 <= k < |picked| && picked[k].message == row.message {
      assert picked[k] in picked && picked[k] in rows;
    }
    if k :| 0 <= k < |picked| && picked[k] == row {
      assert Deliveries(picked, q)[k].message == row.message;
    }
  }

  /** The delivery is of a row that was asked for, under the token and until the end of the lease. */
  ghost predicate Delivers(c: ClaimedMessage, rows: seq<Row>, q: Query) {
    && c.deliveryToken == q.token && c.leaseExpires == Min(q.now + Max(q.lease, 1), I64_MAX)
    && exists row :: row in rows && row.message == c.message && AskedFor(row, q)
  }

  /** A claim hands out only what was asked for, in the order of sending and at most the limit. */
  lemma ClaimHandsOut(ops: seq<Op>, q: Query)
    requires !Text.Blank(q.token)
    ensures ClaimOutcome(After(ops), q).1.Ok?
    ensures
      var out := ClaimOutcome(After(ops), q).1.value;
      && |out| <= Max(1, Min(q.limit, 1000))
      && (forall i, j :: 0 <= i < j < |out| ==> out[i].message.sequence < out[j].message.sequence)
      && (forall k :: 0 <= k < |out| ==> Delivers(out[k], After(ops), q))
  {
    var rows, picked := After(ops), Picked(After(ops), q);
    AlwaysInOrder(ops);
    ClaimTakesTheFirst(rows, q);
    forall k | 0 <= k < |picked| ensures Delivers(Deliveries(picked, q)[k], rows, q) {
      assert picked[k] in picked;
      AskedForIff(picked[k], q);
    }
  }

  /** What was asked for and is not handed out comes after a full limit of messages that are. */
  lemma ClaimSkipsNothing(ops: seq<Op>, q: Query, row: Row)
    requires !Text.Blank(q.token) && row in After(ops) && AskedFor(row, q)
    ensures
      var out := ClaimOutcome(After(ops), q).1.value;
      HandedOut(out, row)
      || (&& |out| == Max(1, Min(q.limit, 1000))
          && forall k :: 0 <= k < |out| ==> out[k].message.sequence < row.message.sequence)
  {
    var rows, picked := After(ops), Picked(After(ops), q);
    AlwaysInOrder(ops);
    ClaimTakesTheFirst(rows, q);
    AskedForIff(row, q);
    PickedIsHandedOut(rows, q, row);
    forall k | 0 <= k < |picked| && row !in picked ensures picked[k].message.sequence < row.message.sequence {
      assert picked[k] in picked;
    }
  }

  lemma AskedForIff(row: Row, q: Query)
    ensures AskedFor(row, q) <==> Claimable(row, q)
  {
  }

  /** A claim puts its token and the end of its lease on exactly the rows it hands out. */
  lemma ClaimLeases(ops: seq<Op>, q: Query, i: nat)
    requires !Text.Blank(q.token) && i < |After(ops)|
    ensures
      var rows, r := After(ops), ClaimOutcome(After(ops), q);
      && |r.0| == |rows| && r.1.Ok? && r.0[i].message == rows[i].message
      && if HandedOut(r.1.value, rows[i]) then
           r.0[i].token == Some(q.token) && r.0[i].leaseExpires == Some(Min(q.now + Max(q.lease, 1), I64_MAX))
         else r.0[i] == rows[i]
  {
    AlwaysInOrder(ops);
    PickedIsHandedOut(After(ops), q, After(ops)[i]);
  }

  /** A claim without a token is refused and changes nothing. */
  lemma BlankClaimFails(rows: seq<Row>, q: Query)
    requires forall i :: 0 <= i < |q.token| ==> Text.IsWhitespace(q.token[i])
    ensures ClaimOutcome(rows, q) == (rows, Err(DeliveryTokenEmpty))
  {
  }

  /** An acknowledgement takes effect if and only if some row has the id and holds the token under a
      lease that still runs. It stamps that row with the time, clears its lease and leaves the
      other rows and the rest of the message alone. */
  lemma AcknowledgeStamps(ops: seq<Op>, id: nat, token: string, now: I64, i: nat)
    requires i < |After(ops)|
    ensures
      var rows, r := After(ops), AcknowledgeOutcome(After(ops), id, token, now);
      var hit := rows[i].message.id == id && rows[i].token == Some(token) && rows[i].message.acknowledgedAt == None
        && rows[i].leaseExpires.Some? && now < rows[i].leaseExpires.value;
      && (hit ==> r.1 && r.0[i] == Row(rows[i].message.(acknowledgedAt := Some(now)), None, None))
      && (!hit ==> r.0[i] == rows[i])
      && (rows[i].message.id == id ==> (r.1 <==> hit))
  {
    var rows := After(ops);
    AlwaysInOrder(ops);
    assert forall k :: 0 <= k < |rows| && rows[k].message.id == rows[i].message.id ==> k == i;
  }

  /** An acknowledgement of an unknown message fails and changes nothing. */
  lemma UnknownIsNotAcknowledged(ops: seq<Op>, id: nat, token: string, now: I64)
    requires forall i :: 0 <= i < |After(ops)| ==> After(ops)[i].message.id != id
    ensures AcknowledgeOutcome(After(ops), id, token, now) == (After(ops), false)
  {
    assert AcknowledgeWhere(After(ops), id, token, now) == After(ops);
  }

  /** A message is stored unless its id or key is taken: at the end of the table, as it was sent,
      unacknowledged and free, under the number of messages its recipient has got, plus one. */
  lemma InsertStoresAsSent(ops: seq<Op>, m: AgentMessage)
    ensures
      var rows, r := After(ops), InsertOutcome(After(ops), m);
      var taken := exists r :: r in rows && (r.message.id == m.id || r.message.idempotencyKey == m.idempotencyKey);
      && (r.1 <==> !taken)
      && (taken ==> r.0 == rows)
      && (!taken ==>
            && |r.0| == |rows| + 1 && r.0[..|rows|] == rows
            && r.0[|rows|].token == None && r.0[|rows|].leaseExpires == None
            && r.0[|rows|].message
               == m.(sequence := Count(rows, RecipientOf, m.to) + 1, acknowledgedAt := None))
  {
    var rows := After(ops);
    AlwaysInOrder(ops);
    TopIsCount(rows, RecipientOf, SequenceOf, m.to);
    if r :| r in rows && (r.message.id == m.id || r.message.idempotencyKey == m.idempotencyKey) {
      var i :| 0 <= i < |rows| && rows[i] == r;
      assert Stored(rows[i], m);
    }
  }

  /** A send nobody interrupts: under a known key it returns the message stored there, for a known id it
      fails, and both change nothing; anything else it stores, and returns what it stored. */
  lemma SendStoresOnce(ops: seq<Op>, m: AgentMessage)
    ensures
      var rows := After(ops);
      var (after, r) := SendOutcome(rows, m);
      var known := exists row :: row in rows && row.message.idempotencyKey == m.idempotencyKey;
      var idTaken := exists row :: row in rows && row.message.id == m.id;
      && (known ==>
            && after == rows && r.Ok? && r.value.idempotencyKey == m.idempotencyKey
            && exists row :: row in rows && row.message == r.value)
      && (!known && idTaken ==> after == rows && r == Err(ConstraintViolated))
      && (!known && !idTaken ==>
            && |after| == |rows| + 1 && after[..|rows|] == rows
            && after[|rows|].message
               == m.(sequence := Count(rows, RecipientOf, m.to) + 1, acknowledgedAt := None)
            && r == Ok(after[|rows|].message))
  {
    var rows, stored := After(ops), ByKey(After(ops), m.idempotencyKey);
    InsertStoresAsSent(ops, m);
    if row :| row in rows && row.message.idempotencyKey == m.idempotencyKey {
      var i :| 0 <= i < |rows| && rows[i] == row;
    }
    if stored.Some? {
      var i :| 0 <= i < |rows| && rows[i].message == stored.value;
      assert rows[i] in rows;
    }
  }
}
