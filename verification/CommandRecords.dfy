/** The durable rows of the command ledger and of control commands, with the
    database constraints that guard them. */
module CommandRecords {
  import opened Common

  datatype Status = Queued | Dispatched | Applied | Failed | TimedOut
  datatype AckStatus = Accepted | AckApplied | Rejected | AckFailed
  datatype FailureCode = DeadlineExceeded | PublishUnconfirmed | DeviceRejected | DeviceFailed

  predicate Pending(s: Status) {
    s.Queued? || s.Dispatched?
  }

  datatype CommandRow = CommandRow(
    correlationId: Id, houseId: Id, deviceId: Id, requestedBy: Id, idempotencyHash: Id, requestedOn: bool,
    createdAt: int, expiresAt: int,
    status: Status, ackStatus: Option<AckStatus>, reportedOn: Option<bool>, failureCode: Option<FailureCode>,
    updatedAt: int, dispatchStartedAt: Option<int>, dispatchedAt: Option<int>,
    ackReceivedAt: Option<int>, stateReceivedAt: Option<int>, completedAt: Option<int>)

  /** The fields of a ledger row that name the intent and its deadline. */
  datatype Identity = Identity(
    commandId: Id, houseId: Id, deviceId: Id, correlationId: Id, createdAt: int, expiresAt: int, requestedOn: bool)

  function IdentityOf(commandId: Id, row: CommandRow): Identity {
    Identity(commandId, row.houseId, row.deviceId, row.correlationId, row.createdAt, row.expiresAt, row.requestedOn)
  }

  /** The exact candidate bytes, as the fields that were serialized into them. */
  datatype Wire = Wire(epoch: Id, commandId: Id, correlationId: Id, createdAt: int, expiresAt: int, on: bool)

  /** SHA-256 of a candidate, taken to be injective. */
  datatype Digest = Sha256(wire: Wire)

  /** SHA-256 of the six values that tie one permit to one device session. */
  datatype Binding = Binding(houseId: Id, deviceId: Id, epoch: Id, bootId: Id, sessionId: Id, nonce: Id)

  datatype ControlRow = ControlRow(epoch: Id, payload: Wire, digest: Digest, binding: Option<Binding>)

  datatype Database = Database(commands: map<Id, CommandRow>, controls: map<Id, ControlRow>)

  predicate SameKey(x: CommandRow, y: CommandRow) {
    x.houseId == y.houseId && x.requestedBy == y.requestedBy && x.idempotencyHash == y.idempotencyHash
  }

  /** Two rows that the unique indexes forbid side by side. */
  predicate Clash(x: CommandRow, y: CommandRow) {
    || x.correlationId == y.correlationId
    || SameKey(x, y)
    || (x.deviceId == y.deviceId && Pending(x.status) && Pending(y.status))
  }

  /** What no ledger operation ever changes: the intent, the idempotency key, the
      dispatch mark, and anything at all about a terminal row. */
  predicate Preserves(row: CommandRow, row': CommandRow) {
    && IdentityOf(0, row') == IdentityOf(0, row) && SameKey(row, row')
    && row'.dispatchStartedAt == row.dispatchStartedAt
    && (!Pending(row.status) ==> row' == row)
  }

  /** The database accepts this row as a new ledger entry. */
  predicate Admits(commands: map<Id, CommandRow>, commandId: Id, row: CommandRow) {
    && commandId !in commands
    && row.createdAt < row.expiresAt
    && forall c :: c in commands ==> !Clash(commands[c], row)
  }

  /** CHECK and UNIQUE constraints of the ledger table. */
  ghost predicate LedgerConstraints(commands: map<Id, CommandRow>) {
    && (forall c :: c in commands ==> commands[c].createdAt < commands[c].expiresAt)
    && (forall c, d :: c in commands && d in commands && c != d ==> !Clash(commands[c], commands[d]))
  }

  /** Nonce contexts are unique over all control commands. */
  predicate BindingFree(controls: map<Id, ControlRow>, binding: Binding) {
    forall c :: c in controls ==> controls[c].binding != Some(binding)
  }

  /** What a database session holds; commands run against it one at a time. */
  class Session {
    var commands: map<Id, CommandRow>
    var controls: map<Id, ControlRow>

    function Db(): Database
      reads this
    {
      Database(commands, controls)
    }
  }
}
