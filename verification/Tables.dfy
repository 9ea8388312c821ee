/** The rows of the shared PostgreSQL tables, and the schema constraints that every transaction relies on. */
module Tables {
  import opened Base

  datatype User = User(email: string, status: int, emailVerifiedAt: Option<Time>)

  datatype TokenType = Otp | MagicLink

  datatype Verification = Verification(
    userId: Id,
    tokenHash: string,
    tokenType: TokenType,
    expiresAt: Time,
    verifiedAt: Option<Time>,
    attempts: int,
    createdAt: Time)

  datatype Status = Queued | Sent | Delivered | Opened | Clicked | Bounced | Failed

  datatype EmailRecord = EmailRecord(
    userId: Option<Id>,
    toEmail: string,
    externalId: Option<string>,
    status: Status,
    createdAt: Time,
    updatedAt: Time)

  /** One row of email_status_history. Only callbacks write an event id into the metadata. */
  datatype HistoryEntry = HistoryEntry(status: Status, message: string, eventId: Option<string>, bounceType: string)

  datatype Session = Session(
    userId: Id,
    tokenHash: string,
    expiresAt: Time,
    revokedAt: Option<Time>,
    replacedBy: Option<Id>)

  /** `history` groups email_status_history by email_record_id, each group in insertion order. */
  datatype Db = Db(
    users: map<Id, User>,
    verifications: map<Id, Verification>,
    records: map<Id, EmailRecord>,
    history: map<Id, seq<HistoryEntry>>,
    sessions: map<Id, Session>)

  const EMPTY := Db(map[], map[], map[], map[], map[])

  function Log(db: Db, recordId: Id): seq<HistoryEntry> {
    if recordId in db.history then db.history[recordId] else []
  }

  ghost predicate UniqueEmails(users: map<Id, User>) {
    forall u, w | u in users && w in users && users[u].email == users[w].email :: u == w
  }

  ghost predicate UniqueMagicHashes(rows: map<Id, Verification>) {
    forall a, b | a in rows && b in rows && rows[a].tokenType == MagicLink && rows[b].tokenType == MagicLink
      && rows[a].tokenHash == rows[b].tokenHash :: a == b
  }

  ghost predicate UniqueSessionHashes(sessions: map<Id, Session>) {
    forall a, b | a in sessions && b in sessions && sessions[a].tokenHash == sessions[b].tokenHash :: a == b
  }

  /** The unique indexes of the migrations. */
  ghost predicate UniqueIndexes(db: Db) {
    UniqueEmails(db.users) && UniqueMagicHashes(db.verifications) && UniqueSessionHashes(db.sessions)
  }

  // The foreign keys of the migrations, table by table.

  ghost predicate RowsHaveUsers(rows: map<Id, Verification>, users: map<Id, User>) {
    forall v | v in rows :: rows[v].userId in users
  }

  ghost predicate RecordsHaveUsers(records: map<Id, EmailRecord>, users: map<Id, User>) {
    forall r | r in records && records[r].userId.Some? :: records[r].userId.value in users
  }

  ghost predicate SessionsHaveUsers(sessions: map<Id, Session>, users: map<Id, User>) {
    forall x | x in sessions :: sessions[x].userId in users
  }

  ghost predicate ReplacementsExist(sessions: map<Id, Session>) {
    forall x {:trigger sessions[x].replacedBy} | x in sessions && sessions[x].replacedBy.Some? ::
      sessions[x].replacedBy.value in sessions
  }

  ghost predicate ForeignKeys(db: Db) {
    && RowsHaveUsers(db.verifications, db.users)
    && RecordsHaveUsers(db.records, db.users)
    && db.history.Keys <= db.records.Keys
    && SessionsHaveUsers(db.sessions, db.users)
    && ReplacementsExist(db.sessions)
  }
}
