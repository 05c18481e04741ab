/** The catalog of agents and its capacity accounting: registration, reservation, start, release. */
module Capacity {
  import opened Prelude
  import ProfileContract
  import Text

  datatype AgentDefinition = AgentDefinition(
    id: nat, name: string, roles: set<ProfileContract.AgentRole>, capabilities: set<nat>,
    maxConcurrency: nat, costWeight: U32, profile: ProfileContract.AgentProfile)

  datatype CatalogError =
    | BadProfile(reason: ProfileContract.ProfileError)
    | DefinitionInvalid | ControlPlaneCannotCode | DefinitionExists
    | NotAvailable | NotFound | NotReserved | NotActive

  datatype Catalog = Catalog(definitions: map<nat, AgentDefinition>, reserved: map<nat, nat>, running: map<nat, nat>)
  {
    function Active(id: nat): nat {
      (if id in reserved then reserved[id] else 0) + (if id in running then running[id] else 0)
    }

    predicate Available(id: nat) {
      id in definitions && Active(id) < definitions[id].maxConcurrency
    }
  }

  const EMPTY: Catalog := Catalog(map[], map[], map[])

  // ---------------------------------------------------------------- the operations on values

  /** Coordinating or staffing together with coding. */
  predicate Mixed(roles: set<ProfileContract.AgentRole>) {
    && (ProfileContract.Coordinator in roles || ProfileContract.StaffingRouter in roles)
    && ProfileContract.Coder in roles
  }

  /** Why a definition is refused, if it is. */
  function Objection(c: Catalog, d: AgentDefinition): Option<CatalogError> {
    var verdict := ProfileContract.Verdict(d.profile);
    if verdict.Some? then Some(BadProfile(verdict.value))
    else if Text.Blank(d.name) || d.capabilities == {} || d.maxConcurrency == 0 || d.profile.role !in d.roles
    then Some(DefinitionInvalid)
    else if Mixed(d.roles) then Some(ControlPlaneCannotCode)
    else if d.id in c.definitions then Some(DefinitionExists)
    else None
  }

  function RegisterOutcome(c: Catalog, d: AgentDefinition): (Catalog, Result<(), CatalogError>) {
    var objection := Objection(c, d);
    if objection.Some? then (c, Err(objection.value))
    else (Catalog(c.definitions[d.id := d], c.reserved[d.id := 0], c.running[d.id := 0]), Ok(()))
  }

  function ReserveOutcome(c: Catalog, id: nat): (Catalog, Result<(), CatalogError>) {
    if !c.Available(id) then (c, Err(NotAvailable))
    else (c.(reserved := c.reserved[id := (if id in c.reserved then c.reserved[id] else 0) + 1]), Ok(()))
  }

  function StartOutcome(c: Catalog, id: nat): (Catalog, Result<(), CatalogError>) {
    if id !in c.reserved then (c, Err(NotFound))
    else if c.reserved[id] == 0 then (c, Err(NotReserved))
    else
      var running := (if id in c.running then c.running[id] else 0) + 1;
      (c.(reserved := c.reserved[id := c.reserved[id] - 1], running := c.running[id := running]), Ok(()))
  }

  function ReleaseOutcome(c: Catalog, id: nat): (Catalog, Result<(), CatalogError>) {
    if id !in c.running then (c, Err(NotFound))
    else if c.running[id] > 0 then (c.(running := c.running[id := c.running[id] - 1]), Ok(()))
    else if id in c.reserved && c.reserved[id] > 0 then (c.(reserved := c.reserved[id := c.reserved[id] - 1]), Ok(()))
    else (c, Err(NotActive))
  }

  // ---------------------------------------------------------------- the invariant

  /** Counters exist for exactly the registered agents and no agent is over its capacity. */
  ghost predicate WithinCapacity(c: Catalog) {
    && c.reserved.Keys == c.definitions.Keys
    && c.running.Keys == c.definitions.Keys
    && (forall id :: id in c.definitions ==> c.definitions[id].id == id)
    && (forall id :: id in c.definitions ==> 0 < c.definitions[id].maxConcurrency)
    && (forall id :: id in c.definitions ==> c.Active(id) <= c.definitions[id].maxConcurrency)
  }

  /** An agent that coordinates or staffs never codes. */
  ghost predicate Separated(c: Catalog) {
    forall id :: id in c.definitions ==> !Mixed(c.definitions[id].roles)
  }

  // ---------------------------------------------------------------- the catalog object

  class AgentCatalog {
    var definitions: map<nat, AgentDefinition>
    var reserved: map<nat, nat>
    var running: map<nat, nat>

    function State(): Catalog
      reads this
    {
      Catalog(definitions, reserved, running)
    }

    ghost predicate Valid()
      reads this
    {
      WithinCapacity(State()) && Separated(State())
    }

    constructor ()
      ensures Valid() && State() == EMPTY
    {
      definitions, reserved, running := map[], map[], map[];
    }

    method Register(d: AgentDefinition) returns (r: Result<(), CatalogError>)
      requires Valid()
      modifies this
      ensures Valid()
      ensures (State(), r) == RegisterOutcome(old(State()), d)
    {
      var sound := ProfileContract.Validate(d.profile);
      if sound.Err? {
        return Err(BadProfile(sound.error));
      }
      if Text.Blank(d.name) || d.capabilities == {} || d.maxConcurrency == 0 || d.profile.role !in d.roles {
        return Err(DefinitionInvalid);
      }
      var isControlPlane := ProfileContract.Coordinator in d.roles || ProfileContract.StaffingRouter in d.roles;
      if isControlPlane && ProfileContract.Coder in d.roles {
        return Err(ControlPlaneCannotCode);
      }
      if d.id in definitions {
        return Err(DefinitionExists);
      }
      definitions := definitions[d.id := d];
      reserved := reserved[d.id := 0];
      running := running[d.id := 0];
      r := Ok(());
    }

    method Reserve(id: nat) returns (r: Result<(), CatalogError>)
      requires Valid()
      modifies this`reserved
      ensures Valid()
      ensures (State(), r) == ReserveOutcome(old(State()), id)
    {
      if !State().Available(id) {
        return Err(NotAvailable);
      }
      reserved := reserved[id := (if id in reserved then reserved[id] else 0) + 1];
      r := Ok(());
    }

    method Start(id: nat) returns (r: Result<(), CatalogError>)
      requires Valid()
      modifies this`reserved, this`running
      ensures Valid()
      ensures (State(), r) == StartOutcome(old(State()), id)
    {
      if id !in reserved {
        return Err(NotFound);
      }
      if reserved[id] == 0 {
        return Err(NotReserved);
      }
      reserved := reserved[id := reserved[id] - 1];
      running := running[id := (if id in running then running[id] else 0) + 1];
      r := Ok(());
    }

    method Release(id: nat) returns (r: Result<(), CatalogError>)
      requires Valid()
      modifies this`reserved, this`running
      ensures Valid()
      ensures (State(), r) == ReleaseOutcome(old(State()), id)
    {
      if id !in running {
        return Err(NotFound);
      }
      if running[id] > 0 {
        running := running[id := running[id] - 1];
        return Ok(());
      }
      if reserved[id] > 0 {
        reserved := reserved[id := reserved[id] - 1];
        return Ok(());
      }
      r := Err(NotActive);
    }
  }

  // ---------------------------------------------------------------- what each operation does to the counters

  /** Only the counters of agent `id` may differ. */
  ghost predicate OnlyCounters(c: Catalog, after: Catalog, id: nat) {
    && after.definitions == c.definitions
    && forall x :: x != id ==>
         && (x in after.reserved <==> x in c.reserved) && (x in after.running <==> x in c.running)
         && (x in c.reserved ==> after.reserved[x] == c.reserved[x])
         && (x in c.running ==> after.running[x] == c.running[x])
  }

  /** A registration is refused for an unsound profile, an incomplete definition, a mixed role and a
      known id, in this order; otherwise the agent is added with both counters at zero. */
  lemma RegisterAdds(c: Catalog, d: AgentDefinition)
    ensures
      var (after, r) := RegisterOutcome(c, d);
      var sound := ProfileContract.Verdict(d.profile).None?;
      var complete := !Text.Blank(d.name) && d.capabilities != {} && d.maxConcurrency >= 1 && d.profile.role in d.roles;
      var mixed := ProfileContract.Coder in d.roles
        && (ProfileContract.Coordinator in d.roles || ProfileContract.StaffingRouter in d.roles);
      && (r.Ok? <==> sound && complete && !mixed && d.id !in c.definitions)
      && (r.Err? && r.error.BadProfile? <==> !sound)
      && (r == Err(DefinitionInvalid) <==> sound && !complete)
      && (r == Err(ControlPlaneCannotCode) <==> sound && complete && mixed)
      && (r == Err(DefinitionExists) <==> sound && complete && !mixed && d.id in c.definitions)
      && (r.Err? ==> after == c)
      && (r.Ok? ==>
            && after.definitions == c.definitions[d.id := d]
            && after.reserved == c.reserved[d.id := 0] && after.running == c.running[d.id := 0])
  {
  }

  /** A reservation is granted exactly while a slot is free, and takes one. */
  lemma ReserveTakesASlot(c: Catalog, id: nat)
    requires WithinCapacity(c)
    ensures
      var (after, r) := ReserveOutcome(c, id);
      && (r.Ok? <==> id in c.definitions && c.reserved[id] + c.running[id] < c.definitions[id].maxConcurrency)
      && (r.Err? ==> after == c && r == Err(NotAvailable))
      && (r.Ok? ==>
            OnlyCounters(c, after, id) && after.reserved[id] == c.reserved[id] + 1
            && id in after.running && after.running[id] == c.running[id])
  {
  }

  /** A start turns a reserved slot into a running one. */
  lemma StartMovesASlot(c: Catalog, id: nat)
    requires WithinCapacity(c)
    ensures
      var (after, r) := StartOutcome(c, id);
      && (r == Err(NotFound) <==> id !in c.definitions)
      && (r == Err(NotReserved) <==> id in c.definitions && c.reserved[id] == 0)
      && (r.Ok? <==> id in c.definitions && c.reserved[id] >= 1)
      && (r.Err? ==> after == c)
      && (r.Ok? ==>
            OnlyCounters(c, after, id)
            && id in after.reserved && after.reserved[id] == c.reserved[id] - 1
            && id in after.running && after.running[id] == c.running[id] + 1)
  {
  }

  /** A release gives back a running slot if there is one, else a reserved one. */
  lemma ReleaseFreesASlot(c: Catalog, id: nat)
    requires WithinCapacity(c)
    ensures
      var (after, r) := ReleaseOutcome(c, id);
      && (r == Err(NotFound) <==> id !in c.definitions)
      && (r == Err(NotActive) <==> id in c.definitions && c.reserved[id] == 0 && c.running[id] == 0)
      && (r.Ok? <==> id in c.definitions && (c.reserved[id] >= 1 || c.running[id] >= 1))
      && (r.Err? ==> after == c)
      && (r.Ok? ==>
            && OnlyCounters(c, after, id) && id in after.reserved && id in after.running
            && (c.running[id] >= 1 ==>
                  after.running[id] == c.running[id] - 1 && after.reserved[id] == c.reserved[id])
            && (c.running[id] == 0 ==> after.running[id] == 0 && after.reserved[id] == c.reserved[id] - 1))
  {
  }

  // ---------------------------------------------------------------- histories

  datatype Op = RegisterOp(d: AgentDefinition) | ReserveOp(id: nat) | StartOp(id: nat) | ReleaseOp(id: nat)

  function Outcome(c: Catalog, op: Op): (Catalog, Result<(), CatalogError>) {
    match op
    case RegisterOp(d) => RegisterOutcome(c, d)
    case ReserveOp(id) => ReserveOutcome(c, id)
    case StartOp(id) => StartOutcome(c, id)
    case ReleaseOp(id) => ReleaseOutcome(c, id)
  }

  function After(ops: seq<Op>): Catalog {
    if ops == [] then EMPTY else Outcome(After(ops[..|ops| - 1]), ops[|ops| - 1]).0
  }

  lemma StepMovesActive(c: Catalog, op: Op, id: nat)
    requires WithinCapacity(c)
    ensures Outcome(c, op).0.Active(id)
      == c.Active(id)
         + (if op == ReserveOp(id) && Outcome(c, op).1.Ok? then 1 else 0)
         - (if op == ReleaseOp(id) && Outcome(c, op).1.Ok? then 1 else 0)
  {
  }

  lemma RegisterKeepsCapacity(c: Catalog, d: AgentDefinition)
    requires WithinCapacity(c) && Separated(c)
    requires 0 < d.maxConcurrency && d.id !in c.definitions
    requires !Mixed(d.roles)
    ensures
      var after := Catalog(c.definitions[d.id := d], c.reserved[d.id := 0], c.running[d.id := 0]);
      WithinCapacity(after) && Separated(after)
  {
  }

  lemma ReserveKeepsCapacity(c: Catalog, id: nat)
    requires WithinCapacity(c)
    ensures WithinCapacity(ReserveOutcome(c, id).0)
  {
    var after := ReserveOutcome(c, id).0;
    forall other | other in c.definitions ensures after.Active(other) <= c.definitions[other].maxConcurrency {
      assert c.Active(other) <= c.definitions[other].maxConcurrency;
    }
  }

  lemma StartKeepsCapacity(c: Catalog, id: nat)
    requires WithinCapacity(c)
    ensures WithinCapacity(StartOutcome(c, id).0)
  {
  }

  lemma ReleaseKeepsCapacity(c: Catalog, id: nat)
    requires WithinCapacity(c)
    ensures WithinCapacity(ReleaseOutcome(c, id).0)
  {
  }

  lemma StepKeepsCapacity(c: Catalog, op: Op)
    requires WithinCapacity(c) && Separated(c)
    ensures WithinCapacity(Outcome(c, op).0) && Separated(Outcome(c, op).0)
  {
    match op {
      case RegisterOp(d) => if Objection(c, d).None? { RegisterKeepsCapacity(c, d); }
      case ReserveOp(id) => ReserveKeepsCapacity(c, id);
      case StartOp(id) => StartKeepsCapacity(c, id);
      case ReleaseOp(id) => ReleaseKeepsCapacity(c, id);
    }
  }

  /** No sequence of operations takes an agent over its capacity or mixes coding into the control plane. */
  lemma {:induction false} CapacityHolds(ops: seq<Op>)
    ensures WithinCapacity(After(ops)) && Separated(After(ops))
  {
    if ops != [] {
      CapacityHolds(ops[..|ops| - 1]);
      StepKeepsCapacity(After(ops[..|ops| - 1]), ops[|ops| - 1]);
    }
  }

  /** How many operations of one kind on an agent succeeded. */
  function Succeeded(ops: seq<Op>, op: Op): nat {
    if ops == [] then 0
    else
      var before, last := ops[..|ops| - 1], ops[|ops| - 1];
      Succeeded(before, op) + if last == op && Outcome(After(before), op).1.Ok? then 1 else 0
  }

  /** The slots in use are the reservations granted minus the releases granted. */
  lemma {:induction false} SlotsAreConserved(ops: seq<Op>, id: nat)
    ensures After(ops).Active(id) == Succeeded(ops, ReserveOp(id)) - Succeeded(ops, ReleaseOp(id))
  {
    if ops != [] {
      var before, last := ops[..|ops| - 1], ops[|ops| - 1];
      SlotsAreConserved(before, id);
      CapacityHolds(before);
      StepMovesActive(After(before), last, id);
    }
  }

  /** How many releases of an agent found a run of it. */
  function Stopped(ops: seq<Op>, id: nat): nat {
    if ops == [] then 0
    else
      var before, c := ops[..|ops| - 1], After(ops[..|ops| - 1]);
      var stops := ops[|ops| - 1] == ReleaseOp(id) && id in c.running && c.running[id] >= 1;
      Stopped(before, id) + if stops then 1 else 0
  }

  /** The runs in progress are the starts granted minus the releases that found one. */
  lemma {:induction false} RunsAreConserved(ops: seq<Op>, id: nat)
    ensures id in After(ops).definitions ==>
        id in After(ops).running && After(ops).running[id] == Succeeded(ops, StartOp(id)) - Stopped(ops, id)
    ensures id !in After(ops).definitions ==> Succeeded(ops, StartOp(id)) == 0 && Stopped(ops, id) == 0
  {
    if ops != [] {
      var before, last := ops[..|ops| - 1], ops[|ops| - 1];
      RunsAreConserved(before, id);
      CapacityHolds(before);
      CapacityHolds(ops);
      StepMovesRunning(After(before), last, id);
    }
  }

  lemma StepMovesRunning(c: Catalog, op: Op, id: nat)
    requires WithinCapacity(c)
    ensures
      var (after, r) := Outcome(c, op);
      && (id in after.definitions <==> id in c.definitions || (op.RegisterOp? && op.d.id == id && r.Ok?))
      && (id in c.definitions && id in after.definitions ==>
            id in after.running &&
            after.running[id] == c.running[id] + (if op == StartOp(id) && r.Ok? then 1 else 0)
              - (if op == ReleaseOp(id) && c.running[id] >= 1 then 1 else 0))
      && (id !in c.definitions && id in after.definitions ==> id in after.running && after.running[id] == 0)
      && (op == StartOp(id) && r.Ok? ==> id in c.definitions)
  {
  }
}
