/** The relational schema of the ordering system: one datatype per table row, the
    enumerations its columns use, and the row-level effect of every UPDATE the
    services issue.  Amounts are whole cents, instants are microseconds (the
    resolution of TIMESTAMPTZ), identifiers stand for UUIDs. */
module Schema {

  type Id = nat
  type Time = int

  const SECOND: Time := 1_000_000
  const HOUR: Time := 3_600 * SECOND
  const UNDO_WINDOW: Time := 120 * SECOND
  const RESTORE_LIMIT: Time := 24 * HOUR
  const DEFAULT_COOLDOWN_SECONDS: nat := 60

  datatype Option<+T> = None | Some(value: T)

  datatype SessionStatus = Open | Closed | Abandoned
  datatype ItemStatus = Pending | Cooking | Ready | Served | Cancelled
  datatype CallStatus = Waiting | Acknowledged
  datatype Canceller = Customer | Staff | System

  datatype TableRow = TableRow(restaurant: Id, active: bool)

  datatype SettingsRow = SettingsRow(timeoutHours: int, cooldownSeconds: int)

  datatype MenuRow = MenuRow(restaurant: Id, name: string, price: int, prepMinutes: int,
                             available: bool, active: bool)

  datatype SessionRow = SessionRow(restaurant: Id, table: Id, status: SessionStatus,
                                   openedBy: Option<Id>, openedAt: Time, lastActivity: Time,
                                   closedAt: Option<Time>, abandonedAt: Option<Time>,
                                   total: Option<int>)

  datatype OrderRow = OrderRow(restaurant: Id, session: Id)

  datatype ItemRow = ItemRow(restaurant: Id, order: Id, menuItem: Id, name: string,
                             price: int, prepMinutes: int, quantity: int, note: Option<string>,
                             status: ItemStatus, requestedAt: Time,
                             servedBy: Option<Id>, servedAt: Option<Time>,
                             cancelledBy: Option<Canceller>, cancelledAt: Option<Time>,
                             reason: Option<string>)

  datatype CallRow = CallRow(restaurant: Id, table: Id, session: Id, status: CallStatus,
                             createdAt: Time, ackedAt: Option<Time>, ackedBy: Option<Id>)

  datatype Db = Db(restaurants: map<Id, bool>, tables: map<Id, TableRow>,
                   settings: map<Id, SettingsRow>, menu: map<Id, MenuRow>,
                   sessions: map<Id, SessionRow>, orders: map<Id, OrderRow>,
                   items: map<Id, ItemRow>, calls: map<Id, CallRow>)

  // ----- Item rows -----

  /** The statuses the bulk cancellations select. */
  predicate Live(s: ItemStatus) {
    s == Pending || s == Cooking || s == Ready
  }

  /** ALLOWED_FROM; a target missing from the table has no source. */
  function AllowedFrom(to: ItemStatus): set<ItemStatus> {
    match to
    case Cooking => {Pending}
    case Ready => {Pending, Cooking}
    case Served => {Pending, Cooking, Ready}
    case Pending => {Served}
    case Cancelled => {}
  }

  /** The three compare-and-swap variants of set_status; None when no row matches. */
  function Move(row: ItemRow, to: ItemStatus, actor: Option<Id>, at: Time): Option<ItemRow> {
    if row.status !in AllowedFrom(to) then None
    else if to == Pending then
      if row.servedAt.Some? && at - row.servedAt.value <= UNDO_WINDOW
      then Some(row.(status := Pending, servedBy := None, servedAt := None))
      else None
    else if to == Served then
      Some(row.(status := Served, servedBy := actor, servedAt := Some(at)))
    else
      Some(row.(status := to))
  }

  function CancelRow(row: ItemRow, who: Canceller, reason: Option<string>, at: Time): ItemRow {
    row.(status := Cancelled, cancelledBy := Some(who), cancelledAt := Some(at), reason := reason)
  }

  /** One order line as create_order inserts it. */
  function NewItem(restaurant: Id, order: Id, menuId: Id, dish: MenuRow, quantity: int,
                   note: Option<string>, at: Time): ItemRow {
    ItemRow(restaurant, order, menuId, dish.name, dish.price, dish.prepMinutes, quantity, note,
            Pending, at, None, None, None, None, None)
  }

  // ----- Session rows -----

  function NewSession(restaurant: Id, table: Id, opener: Option<Id>, at: Time): SessionRow {
    SessionRow(restaurant, table, Open, opener, at, at, None, None, None)
  }

  function TouchRow(row: SessionRow, at: Time): SessionRow {
    row.(lastActivity := at)
  }

  function CloseRow(row: SessionRow, at: Time): SessionRow {
    row.(status := Closed, closedAt := Some(at))
  }

  function BillRow(row: SessionRow, total: int): SessionRow {
    row.(total := Some(total))
  }

  function AbandonRow(row: SessionRow, at: Time): SessionRow {
    row.(status := Abandoned, abandonedAt := Some(at), total := None)
  }

  function ReopenRow(row: SessionRow, at: Time): SessionRow {
    row.(status := Open, abandonedAt := None, lastActivity := at)
  }

  // ----- Joins -----

  /** `order_id IN (SELECT id FROM orders WHERE table_session_id = sid)` */
  predicate InSession(orders: map<Id, OrderRow>, row: ItemRow, sid: Id) {
    row.order in orders && orders[row.order].session == sid
  }

  function ItemsOf(db: Db, sid: Id): map<Id, ItemRow> {
    map i | i in db.items && InSession(db.orders, db.items[i], sid) :: db.items[i]
  }

  function LiveOf(db: Db, sid: Id): map<Id, ItemRow> {
    map i | i in db.items && InSession(db.orders, db.items[i], sid) && Live(db.items[i].status) :: db.items[i]
  }

  /** The bulk UPDATE that cancels every live item of a session on the system's behalf. */
  function CancelLive(db: Db, sid: Id, reason: string, at: Time): map<Id, ItemRow> {
    map i | i in db.items ::
      if InSession(db.orders, db.items[i], sid) && Live(db.items[i].status)
      then CancelRow(db.items[i], System, Some(reason), at) else db.items[i]
  }

  /** dismiss_pending */
  function DismissRow(row: CallRow, at: Time): CallRow {
    row.(status := Acknowledged, ackedAt := Some(at))
  }

  predicate Dismissable(row: CallRow, sid: Id, restaurant: Id) {
    row.session == sid && row.restaurant == restaurant && row.status == Waiting
  }

  function DismissCalls(calls: map<Id, CallRow>, sid: Id, restaurant: Id, at: Time): map<Id, CallRow> {
    map c | c in calls ::
      if Dismissable(calls[c], sid, restaurant) then DismissRow(calls[c], at) else calls[c]
  }

  /** _find_open_session for a table with at most one open session. */
  ghost predicate IsOpenAt(db: Db, table: Id, sid: Id) {
    sid in db.sessions && db.sessions[sid].table == table && db.sessions[sid].status == Open
  }

  ghost function FindOpen(db: Db, table: Id): (r: Option<Id>)
    ensures r.Some? ==> IsOpenAt(db, table, r.value)
    ensures r.None? ==> forall s :: !IsOpenAt(db, table, s)
  {
    if s :| IsOpenAt(db, table, s) then Some(s) else None
  }

  /** The scan of the sweep: open, past the timeout of a restaurant that has settings. */
  predicate Stale(db: Db, sid: Id, now: Time) {
    && sid in db.sessions && db.sessions[sid].status == Open
    && db.sessions[sid].restaurant in db.settings
    && db.sessions[sid].lastActivity < now - db.settings[db.sessions[sid].restaurant].timeoutHours * HOUR
  }

  // ----- What the constraints of the schema promise -----

  /** The unique partial index on table_id WHERE status = 'open'. */
  ghost predicate OneOpenPerTable(db: Db) {
    forall a, b | a in db.sessions && b in db.sessions && a != b
                  && db.sessions[a].status == Open && db.sessions[b].status == Open ::
      db.sessions[a].table != db.sessions[b].table
  }
}
